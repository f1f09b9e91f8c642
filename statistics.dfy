/**
 * The numeric pipelines of the report generator (generate_report.py:69-110,
 * 159-175): one-second buckets over the request start times, per-bucket
 * counts and means, the integer `describe()` summary of one duration column
 * with its quartiles, the addresses attaining the extremes, and the
 * nanosecond-to-millisecond conversion.
 */
module Statistics {
  import opened Base
  import opened LoadTest

  /** The integer columns a latency analysis can be asked about. */
  datatype Field = Occurences | LookupDuration | RequestDuration

  const NanosPerMilli := 1_000_000

  function FieldValue(r: StatData, f: Field): int
  {
    match f
    case Occurences => r.occurences
    case LookupDuration => r.lookupDuration
    case RequestDuration => r.requestDuration
  }

  /** One column of the data frame, in file order. */
  function Column(rs: seq<StatData>, f: Field): seq<int>
  {
    seq(|rs|, i requires 0 <= i < |rs| => FieldValue(rs[i], f))
  }

  // ---------------------------------------------------------------- sums and extremes

  function Sum(xs: seq<int>): int
  {
    if xs == [] then 0 else Sum(xs[..|xs| - 1]) + xs[|xs| - 1]
  }

  function Min(xs: seq<int>): (m: int)
    requires |xs| > 0
    ensures m in xs && forall i :: 0 <= i < |xs| ==> m <= xs[i]
  {
    if |xs| == 1 then xs[0]
    else
      var m := Min(xs[1..]);
      assert forall i :: 1 <= i < |xs| ==> xs[i] == xs[1..][i - 1];
      if xs[0] <= m then xs[0] else m
  }

  function Max(xs: seq<int>): (m: int)
    requires |xs| > 0
    ensures m in xs && forall i :: 0 <= i < |xs| ==> xs[i] <= m
  {
    if |xs| == 1 then xs[0]
    else
      var m := Max(xs[1..]);
      assert forall i :: 1 <= i < |xs| ==> xs[i] == xs[1..][i - 1];
      if xs[0] >= m then xs[0] else m
  }

  /** A sum of values lying in `[lo, hi]` lies between `n * lo` and `n * hi`. */
  lemma {:induction false} SumBounds(xs: seq<int>, lo: int, hi: int)
    requires forall i :: 0 <= i < |xs| ==> lo <= xs[i] <= hi
    ensures |xs| * lo <= Sum(xs) <= |xs| * hi
  {
    if xs != [] {
      var init := xs[..|xs| - 1];
      SumBounds(init, lo, hi);
      assert |xs| * lo == |init| * lo + lo && |xs| * hi == |init| * hi + hi;
    }
  }

  /** The arithmetic mean, as pandas computes it before any rounding. */
  function Mean(xs: seq<int>): real
    requires |xs| > 0
  {
    Sum(xs) as real / |xs| as real
  }

  /** A quotient `sum / n` of a sum between `n * lo` and `n * hi` lies in `[lo, hi]`. */
  lemma QuotientBetween(sum: int, n: nat, lo: int, hi: int)
    requires n > 0 && n * lo <= sum <= n * hi
    ensures lo as real <= sum as real / n as real <= hi as real
  {
    var q, m := sum as real / n as real, n as real;
    assert q * m == sum as real;
    assert (q - lo as real) * m >= 0.0;
    assert (hi as real - q) * m >= 0.0;
  }

  lemma MeanBetweenExtremes(xs: seq<int>)
    requires |xs| > 0
    ensures Min(xs) as real <= Mean(xs) <= Max(xs) as real
  {
    SumBounds(xs, Min(xs), Max(xs));
    QuotientBetween(Sum(xs), |xs|, Min(xs), Max(xs));
  }

  // ---------------------------------------------------------------- sorting and quartiles

  predicate Ascending(s: seq<int>)
  {
    forall i, j :: 0 <= i < j < |s| ==> s[i] <= s[j]
  }

  function Insert(x: int, s: seq<int>): (r: seq<int>)
    requires Ascending(s)
    ensures |r| == |s| + 1 && (r[0] == x || (s != [] && r[0] == s[0]))
    ensures Ascending(r) && multiset(r) == multiset(s) + multiset{x}
  {
    if s == [] || x <= s[0] then [x] + s
    else
      var rest := Insert(x, s[1..]);
      var r := [s[0]] + rest;
      assert multiset(r) == multiset(s) + multiset{x} by {
        assert s == [s[0]] + s[1..];
      }
      assert Ascending(r) by {
        AscendingCons(s[0], rest);
      }
      r
  }

  /** A value no larger than the head of ascending values extends them. */
  lemma AscendingCons(h: int, t: seq<int>)
    requires Ascending(t) && (t != [] ==> h <= t[0])
    ensures Ascending([h] + t)
  {
    var r := [h] + t;
    forall i, j | 0 <= i < j < |r|
      ensures r[i] <= r[j]
    {
      if i == 0 {
        assert r[j] == t[j - 1] && t[0] <= t[j - 1];
      } else {
        assert r[i] == t[i - 1] && r[j] == t[j - 1];
      }
    }
  }

  /** The values in ascending order. */
  function SortAscending(xs: seq<int>): (s: seq<int>)
    ensures Ascending(s) && multiset(s) == multiset(xs)
  {
    if xs == [] then []
    else
      assert xs == [xs[0]] + xs[1..];
      Insert(xs[0], SortAscending(xs[1..]))
  }

  /** Ascending values with the same contents as `xs` start at its minimum and end at its maximum. */
  lemma AscendingEnds(s: seq<int>, xs: seq<int>)
    requires |xs| > 0 && Ascending(s) && multiset(s) == multiset(xs)
    ensures |s| == |xs| && s[0] == Min(xs) && s[|s| - 1] == Max(xs)
  {
    assert |s| == |xs| by {
      assert |multiset(s)| == |multiset(xs)|;
    }
    var lo, hi := Min(xs), Max(xs);
    var first, last := s[0], s[|s| - 1];
    assert first in multiset(xs) && last in multiset(xs);
    var p :| 0 <= p < |xs| && xs[p] == first;
    var q :| 0 <= q < |xs| && xs[q] == last;
    assert lo in multiset(s) && hi in multiset(s);
    var i :| 0 <= i < |s| && s[i] == lo;
    var j :| 0 <= j < |s| && s[j] == hi;
    assert first <= s[i] && s[j] <= last;
  }

  /** The smallest and largest values are the ends of the ascending order. */
  lemma {:induction false} SortedEnds(xs: seq<int>)
    requires |xs| > 0
    ensures |SortAscending(xs)| == |xs|
    ensures SortAscending(xs)[0] == Min(xs) && SortAscending(xs)[|xs| - 1] == Max(xs)
  {
    AscendingEnds(SortAscending(xs), xs);
  }

  lemma MulMonotone(x: int, y: int, d: nat)
    requires x <= y
    ensures x * d <= y * d
  {
  }

  /** Division and remainder are the only quotient and remainder of a product plus a small rest. */
  lemma DivUnique(a: int, d: int, q: int, r: int)
    requires d > 0 && a == q * d + r && 0 <= r < d
    ensures a / d == q && a % d == r
  {
    var q', r' := a / d, a % d;
    assert (q - q') * d == r' - r;
    if q - q' >= 1 {
      MulMonotone(1, q - q', d);
    } else if q - q' <= -1 {
      MulMonotone(q - q', -1, d);
    }
  }

  lemma DivisionMonotone(a: nat, b: nat, den: nat)
    requires den > 0 && a <= b
    ensures a / den <= b / den
    ensures a / den == b / den ==> a % den <= b % den
  {
    var qa, qb := a / den, b / den;
    if qa >= qb + 1 {
      MulMonotone(qb + 1, qa, den);
    }
  }

  /** The scaled position `(n - 1) * num` of the `num/den` quantile among `n` values. */
  function Scaled(n: nat, num: nat): nat
    requires n > 0
  {
    (n - 1) * num
  }

  /** The position `(n - 1) * num / den` of a quantile stays inside the values. */
  lemma DivisionOfProductBounds(n: nat, num: nat, den: nat)
    requires den > 0 && num <= den && n > 0
    ensures Scaled(n, num) / den <= n - 1
    ensures Scaled(n, num) % den != 0 ==> Scaled(n, num) / den < n - 1
  {
    var pos, top := Scaled(n, num), (n - 1) * den;
    MulMonotone(num, den, n - 1);
    assert pos <= top;
    DivUnique(top, den, n - 1, 0);
    DivisionMonotone(pos, top, den);
  }

  /**
   * The value at fractional position `lo + rest / den` of ascending values:
   * `s[lo]` moved toward `s[lo + 1]` by that fraction of the gap.
   */
  function Interpolate(s: seq<int>, lo: nat, rest: nat, den: nat): real
    requires den > 0 && rest < den && lo < |s| && (rest != 0 ==> lo + 1 < |s|)
  {
    if rest == 0 then s[lo] as real
    else s[lo] as real + (rest as real / den as real) * (s[lo + 1] - s[lo]) as real
  }

  /** An interpolated value lies between its two neighbours. */
  lemma InterpolateBetween(s: seq<int>, lo: nat, rest: nat, den: nat)
    requires den > 0 && rest < den && lo < |s| && (rest != 0 ==> lo + 1 < |s|) && Ascending(s)
    ensures s[lo] as real <= Interpolate(s, lo, rest, den)
    ensures rest != 0 ==> Interpolate(s, lo, rest, den) <= s[lo + 1] as real
  {
    if rest != 0 {
      var t := rest as real / den as real;
      var d := (s[lo + 1] - s[lo]) as real;
      assert 0.0 <= t <= 1.0 && d >= 0.0;
      assert (1.0 - t) * d >= 0.0;
    }
  }

  /** Moving the position right never lowers the interpolated value. */
  lemma InterpolateMonotone(s: seq<int>, loA: nat, restA: nat, loB: nat, restB: nat, den: nat)
    requires den > 0 && restA < den && loA < |s| && (restA != 0 ==> loA + 1 < |s|)
    requires restB < den && loB < |s| && (restB != 0 ==> loB + 1 < |s|)
    requires loA < loB || (loA == loB && restA <= restB)
    requires Ascending(s)
    ensures Interpolate(s, loA, restA, den) <= Interpolate(s, loB, restB, den)
  {
    InterpolateBetween(s, loA, restA, den);
    InterpolateBetween(s, loB, restB, den);
    if loA == loB {
      if restA != 0 {
        var d := (s[loA + 1] - s[loA]) as real;
        var tA, tB := restA as real / den as real, restB as real / den as real;
        assert tA <= tB && d >= 0.0;
        assert (tB - tA) * d >= 0.0;
      }
    } else {
      assert s[loA + 1] <= s[loB];
    }
  }

  /**
   * The `num/den` quantile of ascending values with linear interpolation
   * (pandas' default): position `(n - 1) * num / den`, interpolated between
   * the two values around it.
   */
  function Quantile(s: seq<int>, num: nat, den: nat): real
    requires |s| > 0 && den > 0 && num <= den
  {
    DivisionOfProductBounds(|s|, num, den);
    var pos := Scaled(|s|, num);
    Interpolate(s, pos / den, pos % den, den)
  }

  /** A larger fraction gives a position no further left. */
  lemma PositionsOrdered(n: nat, a: nat, b: nat, den: nat)
    requires n > 0 && den > 0 && a <= b
    ensures var posA, posB := Scaled(n, a), Scaled(n, b);
      posA / den < posB / den || (posA / den == posB / den && posA % den <= posB % den)
  {
    MulMonotone(a, b, n - 1);
    DivisionMonotone(Scaled(n, a), Scaled(n, b), den);
  }

  /** A larger fraction never gives a smaller quantile. */
  lemma QuantileMonotone(s: seq<int>, a: nat, b: nat, den: nat)
    requires |s| > 0 && den > 0 && a <= b <= den && Ascending(s)
    ensures Quantile(s, a, den) <= Quantile(s, b, den)
  {
    var n := |s|;
    PositionsOrdered(n, a, b, den);
    DivisionOfProductBounds(n, a, den);
    DivisionOfProductBounds(n, b, den);
    var posA, posB := Scaled(n, a), Scaled(n, b);
    var loA, restA, loB, restB := posA / den, posA % den, posB / den, posB % den;
    assert Quantile(s, a, den) == Interpolate(s, loA, restA, den);
    assert Quantile(s, b, den) == Interpolate(s, loB, restB, den);
    InterpolateMonotone(s, loA, restA, loB, restB, den);
  }

  lemma QuantileEnds(s: seq<int>, den: nat)
    requires |s| > 0 && den > 0
    ensures Quantile(s, 0, den) == s[0] as real
    ensures Quantile(s, den, den) == s[|s| - 1] as real
  {
    DivUnique((|s| - 1) * den, den, |s| - 1, 0);
    DivUnique(0, den, 0, 0);
  }

  /** `describe().astype('int64')` of one column: every figure truncated to a whole nanosecond. */
  datatype Description = Description(count: nat, mean: int, min: int, p25: int, p50: int, p75: int, max: int)

  function Describe(xs: seq<int>): Description
    requires |xs| > 0
  {
    var s := SortAscending(xs);
    Description(|xs|, Truncate(Mean(xs)), Min(xs),
      Truncate(Quantile(s, 1, 4)), Truncate(Quantile(s, 2, 4)), Truncate(Quantile(s, 3, 4)), Max(xs))
  }

  /** The quartiles and the mean of the integer summary lie in order between its extremes. */
  lemma DescribeOrdered(xs: seq<int>)
    requires |xs| > 0
    ensures var d := Describe(xs);
      d.min <= d.p25 <= d.p50 <= d.p75 <= d.max && d.min <= d.mean <= d.max
  {
    var s := SortAscending(xs);
    SortedEnds(xs);
    QuantileEnds(s, 4);
    QuantileMonotone(s, 0, 1, 4);
    QuantileMonotone(s, 1, 2, 4);
    QuantileMonotone(s, 2, 3, 4);
    QuantileMonotone(s, 3, 4, 4);
    TruncateMonotone(s[0] as real, Quantile(s, 1, 4));
    TruncateMonotone(Quantile(s, 1, 4), Quantile(s, 2, 4));
    TruncateMonotone(Quantile(s, 2, 4), Quantile(s, 3, 4));
    TruncateMonotone(Quantile(s, 3, 4), s[|s| - 1] as real);
    TruncateOfInteger(s[0]);
    TruncateOfInteger(s[|s| - 1]);
    MeanBetweenExtremes(xs);
    TruncateMonotone(Min(xs) as real, Mean(xs));
    TruncateMonotone(Mean(xs), Max(xs) as real);
    TruncateOfInteger(Min(xs));
    TruncateOfInteger(Max(xs));
  }

  // ---------------------------------------------------------------- one-second buckets

  /** The one-second bin of an instant: `floor(t / 1e9)`; Dafny's `/` floors for a positive divisor. */
  function SecondOf(t: int): int
  {
    t / NanosPerSecond
  }

  lemma SecondOfBounds(t: int)
    ensures SecondOf(t) * NanosPerSecond <= t < SecondOf(t) * NanosPerSecond + NanosPerSecond
  {
  }

  function StartSeconds(rs: seq<StatData>): seq<int>
  {
    seq(|rs|, i requires 0 <= i < |rs| => SecondOf(rs[i].startTime))
  }

  /** The bin of the earliest request: bucket 0 of the re-indexed series. */
  function FirstSecond(rs: seq<StatData>): int
    requires |rs| > 0
  {
    Min(StartSeconds(rs))
  }

  function LastSecond(rs: seq<StatData>): int
    requires |rs| > 0
  {
    Max(StartSeconds(rs))
  }

  /** How many buckets the resampled series has: every second from the first bin to the last. */
  function BucketCount(rs: seq<StatData>): (n: nat)
    requires |rs| > 0
    ensures n >= 1
  {
    assert StartSeconds(rs)[0] >= FirstSecond(rs) && StartSeconds(rs)[0] <= LastSecond(rs);
    LastSecond(rs) - FirstSecond(rs) + 1
  }

  /**
   * The re-indexed bucket of record `i`: whole seconds elapsed between the
   * first bin and the record's bin, always a bucket of the series.
   */
  function Offset(rs: seq<StatData>, i: nat): (k: nat)
    requires i < |rs|
    ensures k < BucketCount(rs)
    ensures FirstSecond(rs) + k == SecondOf(rs[i].startTime)
  {
    assert StartSeconds(rs)[i] == SecondOf(rs[i].startTime);
    SecondOf(rs[i].startTime) - FirstSecond(rs)
  }

  /** The earliest request is in bucket 0 and the latest in the last bucket. */
  lemma OffsetsReachBothEnds(rs: seq<StatData>)
    requires |rs| > 0
    ensures exists i :: 0 <= i < |rs| && Offset(rs, i) == 0
    ensures exists j :: 0 <= j < |rs| && Offset(rs, j) == BucketCount(rs) - 1
  {
    var secs := StartSeconds(rs);
    var i :| 0 <= i < |secs| && secs[i] == Min(secs);
    var j :| 0 <= j < |secs| && secs[j] == Max(secs);
    assert Offset(rs, i) == 0;
    assert Offset(rs, j) == BucketCount(rs) - 1;
  }

  /** How many requests started in second `sec`. */
  function CountIn(rs: seq<StatData>, sec: int): nat
  {
    if rs == [] then 0
    else (if SecondOf(rs[0].startTime) == sec then 1 else 0) + CountIn(rs[1..], sec)
  }

  /** The total of one column over the requests that started in second `sec`. */
  function SumIn(rs: seq<StatData>, f: Field, sec: int): int
  {
    if rs == [] then 0
    else (if SecondOf(rs[0].startTime) == sec then FieldValue(rs[0], f) else 0) + SumIn(rs[1..], f, sec)
  }

  /** `resample('1S').agg('mean')` for one bin: absent when no request started in it. */
  function MeanIn(rs: seq<StatData>, f: Field, sec: int): Option<real>
  {
    if CountIn(rs, sec) == 0 then None else Some(SumIn(rs, f, sec) as real / CountIn(rs, sec) as real)
  }

  /** `resample('1S').count()`, indexed by seconds since the first bin (generate_report.py:160-167). */
  function RequestsPerSecond(rs: seq<StatData>): (c: seq<nat>)
    requires |rs| > 0
    ensures |c| == BucketCount(rs)
  {
    CountsFrom(rs, FirstSecond(rs), BucketCount(rs))
  }

  /** The request counts of `m` consecutive seconds starting at `first`. */
  function CountsFrom(rs: seq<StatData>, first: int, m: nat): (c: seq<nat>)
    ensures |c| == m
    ensures forall k :: 0 <= k < m ==> c[k] == CountIn(rs, first + k)
  {
    if m == 0 then [] else CountsFrom(rs, first, m - 1) + [CountIn(rs, first + m - 1)]
  }

  /** `resample('1S').agg({field: 'mean'})`, indexed by seconds since the first bin (generate_report.py:71-77). */
  function MeanPerSecond(rs: seq<StatData>, f: Field): seq<Option<real>>
    requires |rs| > 0
  {
    seq(BucketCount(rs), k requires 0 <= k < BucketCount(rs) => MeanIn(rs, f, FirstSecond(rs) + k))
  }

  /** A second holds a request exactly when some record starts in it. */
  lemma {:induction false} CountInPositive(rs: seq<StatData>, sec: int)
    ensures CountIn(rs, sec) > 0 <==> exists i :: 0 <= i < |rs| && SecondOf(rs[i].startTime) == sec
  {
    if rs != [] {
      CountInPositive(rs[1..], sec);
      if exists i :: 0 <= i < |rs[1..]| && SecondOf(rs[1..][i].startTime) == sec {
        var i :| 0 <= i < |rs[1..]| && SecondOf(rs[1..][i].startTime) == sec;
        assert SecondOf(rs[i + 1].startTime) == sec;
      }
      if exists i :: 0 <= i < |rs| && SecondOf(rs[i].startTime) == sec {
        var i :| 0 <= i < |rs| && SecondOf(rs[i].startTime) == sec;
        if i > 0 {
          assert SecondOf(rs[1..][i - 1].startTime) == sec;
        }
      }
    }
  }

  /** How many requests started in a second of `[lo, hi)`. */
  function CountBetween(rs: seq<StatData>, lo: int, hi: int): nat
  {
    if rs == [] then 0
    else (if lo <= SecondOf(rs[0].startTime) < hi then 1 else 0) + CountBetween(rs[1..], lo, hi)
  }

  lemma {:induction false} CountBetweenStep(rs: seq<StatData>, lo: int, hi: int)
    requires lo <= hi
    ensures CountBetween(rs, lo, hi + 1) == CountBetween(rs, lo, hi) + CountIn(rs, hi)
  {
    if rs != [] {
      CountBetweenStep(rs[1..], lo, hi);
    }
  }

  lemma {:induction false} CountBetweenAll(rs: seq<StatData>, lo: int, hi: int)
    requires forall i :: 0 <= i < |rs| ==> lo <= SecondOf(rs[i].startTime) < hi
    ensures CountBetween(rs, lo, hi) == |rs|
  {
    if rs != [] {
      assert forall i :: 0 <= i < |rs[1..]| ==> rs[1..][i] == rs[i + 1];
      CountBetweenAll(rs[1..], lo, hi);
    }
  }

  lemma {:induction false} CountsPrefixSum(rs: seq<StatData>, m: nat)
    requires |rs| > 0 && m <= BucketCount(rs)
    ensures Sum(RequestsPerSecond(rs)[..m]) == CountBetween(rs, FirstSecond(rs), FirstSecond(rs) + m)
  {
    var c := RequestsPerSecond(rs);
    if m > 0 {
      CountsPrefixSum(rs, m - 1);
      assert c[..m][..m - 1] == c[..m - 1];
      CountBetweenStep(rs, FirstSecond(rs), FirstSecond(rs) + m - 1);
    } else {
      CountBetweenEmpty(rs, FirstSecond(rs));
    }
  }

  lemma {:induction false} CountBetweenEmpty(rs: seq<StatData>, lo: int)
    ensures CountBetween(rs, lo, lo) == 0
  {
    if rs != [] {
      CountBetweenEmpty(rs[1..], lo);
    }
  }

  /** The per-second counts add up to the number of records. */
  lemma SumOfRequestsPerSecond(rs: seq<StatData>)
    requires |rs| > 0
    ensures Sum(RequestsPerSecond(rs)) == |rs|
  {
    var c := RequestsPerSecond(rs);
    CountsPrefixSum(rs, |c|);
    assert c[..|c|] == c;
    forall i | 0 <= i < |rs|
      ensures FirstSecond(rs) <= SecondOf(rs[i].startTime) < FirstSecond(rs) + |c|
    {
      assert StartSeconds(rs)[i] == SecondOf(rs[i].startTime);
    }
    CountBetweenAll(rs, FirstSecond(rs), FirstSecond(rs) + |c|);
  }

  /** Every record's bucket, and so the first and the last bucket, holds at least one request. */
  lemma RecordBucketsOccupied(rs: seq<StatData>)
    requires |rs| > 0
    ensures forall i :: 0 <= i < |rs| ==> RequestsPerSecond(rs)[Offset(rs, i)] >= 1
    ensures RequestsPerSecond(rs)[0] >= 1
    ensures RequestsPerSecond(rs)[BucketCount(rs) - 1] >= 1
  {
    forall i | 0 <= i < |rs|
      ensures RequestsPerSecond(rs)[Offset(rs, i)] >= 1
    {
      CountInPositive(rs, SecondOf(rs[i].startTime));
    }
    OffsetsReachBothEnds(rs);
  }

  /** A bucket has a mean exactly when it has requests. */
  lemma EmptyBucketHasNoMean(rs: seq<StatData>, f: Field, k: nat)
    requires |rs| > 0 && k < BucketCount(rs)
    ensures MeanPerSecond(rs, f)[k].None? <==> RequestsPerSecond(rs)[k] == 0
    ensures RequestsPerSecond(rs)[k] == 0 <==>
      forall i :: 0 <= i < |rs| ==> Offset(rs, i) != k
  {
    var sec := FirstSecond(rs) + k;
    assert RequestsPerSecond(rs)[k] == CountIn(rs, sec);
    assert MeanPerSecond(rs, f)[k] == MeanIn(rs, f, sec);
    CountInPositive(rs, sec);
    assert forall i :: 0 <= i < |rs| ==> (Offset(rs, i) == k <==> SecondOf(rs[i].startTime) == sec);
  }

  lemma {:induction false} SumInBounds(rs: seq<StatData>, f: Field, sec: int, lo: int, hi: int)
    requires forall i :: 0 <= i < |rs| ==> lo <= FieldValue(rs[i], f) <= hi
    ensures CountIn(rs, sec) * lo <= SumIn(rs, f, sec) <= CountIn(rs, sec) * hi
  {
    if rs != [] {
      assert forall i :: 0 <= i < |rs[1..]| ==> rs[1..][i] == rs[i + 1];
      SumInBounds(rs[1..], f, sec, lo, hi);
      var c := CountIn(rs[1..], sec);
      assert (c + 1) * lo == c * lo + lo && (c + 1) * hi == c * hi + hi;
    }
  }

  /** Each bucket mean lies between the smallest and the largest value of the column. */
  lemma BucketMeanWithinExtremes(rs: seq<StatData>, f: Field, k: nat)
    requires |rs| > 0 && k < BucketCount(rs)
    requires MeanPerSecond(rs, f)[k].Some?
    ensures var col := Column(rs, f);
      Min(col) as real <= MeanPerSecond(rs, f)[k].value <= Max(col) as real
  {
    var col, sec := Column(rs, f), FirstSecond(rs) + k;
    assert forall i :: 0 <= i < |rs| ==> col[i] == FieldValue(rs[i], f);
    assert MeanPerSecond(rs, f)[k] == MeanIn(rs, f, sec);
    SumInBounds(rs, f, sec, Min(col), Max(col));
    QuotientBetween(SumIn(rs, f, sec), CountIn(rs, sec), Min(col), Max(col));
  }

  // ---------------------------------------------------------------- reported figures

  /** Nanoseconds to milliseconds: exact division by one million. */
  function Millis(ns: real): real
  {
    ns / NanosPerMilli as real
  }

  lemma MillisExact(ns: real)
    ensures Millis(ns) * NanosPerMilli as real == ns
    ensures ns == NanosPerMilli as real ==> Millis(ns) == 1.0
  {
  }

  lemma MillisMonotone(x: real, y: real)
    requires x <= y
    ensures Millis(x) <= Millis(y)
  {
  }

  /**
   * What `analyze_latency` reports for one column (generate_report.py:69-110),
   * in milliseconds; the standard deviation is not modelled.
   */
  datatype LatencyFigures = LatencyFigures(
    perSecond: seq<Option<real>>,
    mean: real,
    p25: real,
    p50: real,
    p75: real,
    min: real,
    minIp: string,
    max: real,
    maxIp: string)

  function MillisOrAbsent(v: Option<real>): Option<real>
  {
    match v
    case None => None
    case Some(x) => Some(Millis(x))
  }

  function LatencyAnalysis(rs: seq<StatData>, f: Field): LatencyFigures
    requires |rs| > 0
  {
    var col := Column(rs, f);
    var d := Describe(col);
    var means := MeanPerSecond(rs, f);
    LatencyFigures(
      seq(|means|, k requires 0 <= k < |means| => MillisOrAbsent(means[k])),
      Millis(d.mean as real), Millis(d.p25 as real), Millis(d.p50 as real), Millis(d.p75 as real),
      Millis(d.min as real), rs[IndexOf(col, d.min)].ip,
      Millis(d.max as real), rs[IndexOf(col, d.max)].ip)
  }

  /** The reported quartiles and mean lie in order between the reported extremes. */
  lemma LatencyFiguresOrdered(rs: seq<StatData>, f: Field)
    requires |rs| > 0
    ensures var a := LatencyAnalysis(rs, f);
      a.min <= a.p25 <= a.p50 <= a.p75 <= a.max && a.min <= a.mean <= a.max
  {
    var d := Describe(Column(rs, f));
    DescribeOrdered(Column(rs, f));
    MillisMonotone(d.min as real, d.p25 as real);
    MillisMonotone(d.p25 as real, d.p50 as real);
    MillisMonotone(d.p50 as real, d.p75 as real);
    MillisMonotone(d.p75 as real, d.max as real);
    MillisMonotone(d.min as real, d.mean as real);
    MillisMonotone(d.mean as real, d.max as real);
  }

  /** Where the reported extremes and their addresses come from. */
  lemma LatencyAnalysisExtremes(rs: seq<StatData>, f: Field)
    requires |rs| > 0
    ensures var a, col := LatencyAnalysis(rs, f), Column(rs, f);
      && a.min == Millis(Min(col) as real) && a.minIp == rs[IndexOf(col, Min(col))].ip
      && a.max == Millis(Max(col) as real) && a.maxIp == rs[IndexOf(col, Max(col))].ip
  {
  }

  /** Every value of the column, in milliseconds, lies between the column's extremes. */
  lemma ColumnBounds(rs: seq<StatData>, f: Field)
    requires |rs| > 0
    ensures var col := Column(rs, f);
      forall i :: 0 <= i < |rs| ==>
        Millis(Min(col) as real) <= Millis(FieldValue(rs[i], f) as real) <= Millis(Max(col) as real)
  {
    var col := Column(rs, f);
    forall i | 0 <= i < |rs|
      ensures Millis(Min(col) as real) <= Millis(FieldValue(rs[i], f) as real) <= Millis(Max(col) as real)
    {
      assert col[i] == FieldValue(rs[i], f);
      MillisMonotone(Min(col) as real, col[i] as real);
      MillisMonotone(col[i] as real, Max(col) as real);
    }
  }

  /** The first records attaining the column's extremes, and that no earlier record does. */
  lemma FirstExtremes(rs: seq<StatData>, f: Field)
    requires |rs| > 0
    ensures var col := Column(rs, f);
      var kMin, kMax := IndexOf(col, Min(col)), IndexOf(col, Max(col));
      && kMin < |rs| && FieldValue(rs[kMin], f) == Min(col)
      && (forall j :: 0 <= j < kMin ==> FieldValue(rs[j], f) > Min(col))
      && kMax < |rs| && FieldValue(rs[kMax], f) == Max(col)
      && (forall j :: 0 <= j < kMax ==> FieldValue(rs[j], f) < Max(col))
  {
    var col := Column(rs, f);
    var lo, hi := Min(col), Max(col);
    var kMin, kMax := IndexOf(col, lo), IndexOf(col, hi);
    assert col[kMin] == FieldValue(rs[kMin], f) && col[kMax] == FieldValue(rs[kMax], f);
    assert forall j :: 0 <= j < kMin ==> col[j] == FieldValue(rs[j], f) && col[j] != lo && col[j] >= lo;
    assert forall j :: 0 <= j < kMax ==> col[j] == FieldValue(rs[j], f) && col[j] != hi && col[j] <= hi;
  }

  /**
   * The reported minimum and maximum are the column's exact extremes, each
   * with the address of the first record in file order that attains it.
   */
  lemma {:induction false} LatencyExtremes(rs: seq<StatData>, f: Field)
    requires |rs| > 0
    ensures var a := LatencyAnalysis(rs, f);
      && (forall i :: 0 <= i < |rs| ==> a.min <= Millis(FieldValue(rs[i], f) as real) <= a.max)
      && (exists k :: 0 <= k < |rs| && a.min * NanosPerMilli as real == FieldValue(rs[k], f) as real
            && rs[k].ip == a.minIp && forall j :: 0 <= j < k ==> FieldValue(rs[j], f) as real > a.min * NanosPerMilli as real)
      && (exists k :: 0 <= k < |rs| && a.max * NanosPerMilli as real == FieldValue(rs[k], f) as real
            && rs[k].ip == a.maxIp && forall j :: 0 <= j < k ==> FieldValue(rs[j], f) as real < a.max * NanosPerMilli as real)
  {
    var a, col := LatencyAnalysis(rs, f), Column(rs, f);
    var lo, hi := Min(col), Max(col);
    LatencyAnalysisExtremes(rs, f);
    ColumnBounds(rs, f);
    FirstExtremes(rs, f);
    var kMin, kMax := IndexOf(col, lo), IndexOf(col, hi);
    MillisExact(lo as real);
    MillisExact(hi as real);
    assert a.min * NanosPerMilli as real == FieldValue(rs[kMin], f) as real && rs[kMin].ip == a.minIp;
    assert a.max * NanosPerMilli as real == FieldValue(rs[kMax], f) as real && rs[kMax].ip == a.maxIp;
  }

  /** Each per-second mean, in milliseconds, lies between the reported extremes. */
  lemma LatencyPerSecondWithinExtremes(rs: seq<StatData>, f: Field, k: nat)
    requires |rs| > 0 && k < BucketCount(rs)
    ensures var a := LatencyAnalysis(rs, f);
      |a.perSecond| == BucketCount(rs) &&
      (a.perSecond[k].None? <==> RequestsPerSecond(rs)[k] == 0) &&
      (a.perSecond[k].Some? ==> a.min <= a.perSecond[k].value <= a.max)
  {
    var means := MeanPerSecond(rs, f);
    EmptyBucketHasNoMean(rs, f, k);
    if means[k].Some? {
      BucketMeanWithinExtremes(rs, f, k);
      var col := Column(rs, f);
      MillisMonotone(Min(col) as real, means[k].value);
      MillisMonotone(means[k].value, Max(col) as real);
    }
  }

  /** What `analyze_requests_per_second` reports (generate_report.py:159-175), before rounding. */
  datatype ThroughputFigures = ThroughputFigures(perSecond: seq<int>, mean: real, min: int, max: int)

  function ThroughputAnalysis(rs: seq<StatData>): ThroughputFigures
    requires |rs| > 0
  {
    var c := RequestsPerSecond(rs);
    ThroughputFigures(c, Mean(c), Min(c), Max(c))
  }

  /**
   * One bucket per second of the run; the mean rate is the number of records
   * over the number of buckets, between the smallest and largest count, and
   * the busiest second saw at least one request.
   */
  lemma ThroughputFiguresFacts(rs: seq<StatData>)
    requires |rs| > 0
    ensures var t := ThroughputAnalysis(rs);
      && |t.perSecond| == BucketCount(rs)
      && t.mean == |rs| as real / BucketCount(rs) as real
      && 0 <= t.min && t.min as real <= t.mean <= t.max as real
      && t.max >= 1
  {
    var c := RequestsPerSecond(rs);
    var t := ThroughputAnalysis(rs);
    assert |c| == BucketCount(rs);
    SumOfRequestsPerSecond(rs);
    assert t.mean == |rs| as real / BucketCount(rs) as real;
    MeanBetweenExtremes(c);
    RecordBucketsOccupied(rs);
    assert c[0] >= 1 && c[0] <= t.max;
  }

  /**
   * Three requests of 1, 2 and 3 milliseconds, one per second: the latency
   * card reports a mean of 2 ms, a minimum of 1 ms from the first client and
   * a maximum of 3 ms from the last one.
   */
  lemma {:induction false} ThreeRequestExample()
    ensures var rs := [StatData("10.0.0.1", 0, 0, 1_000_000, 0, 0),
                       StatData("10.0.0.2", 0, 0, 2_000_000, 1_000_000_000, 0),
                       StatData("10.0.0.3", 0, 0, 3_000_000, 2_000_000_000, 0)];
      var a := LatencyAnalysis(rs, RequestDuration);
      a.mean == 2.0 && a.min == 1.0 && a.max == 3.0 && a.minIp == "10.0.0.1" && a.maxIp == "10.0.0.3"
  {
    var rs := [StatData("10.0.0.1", 0, 0, 1_000_000, 0, 0),
               StatData("10.0.0.2", 0, 0, 2_000_000, 1_000_000_000, 0),
               StatData("10.0.0.3", 0, 0, 3_000_000, 2_000_000_000, 0)];
    var col := Column(rs, RequestDuration);
    assert col == [1_000_000, 2_000_000, 3_000_000];
    assert Sum(col) == 6_000_000 by {
      assert col[..2] == [1_000_000, 2_000_000];
      assert col[..2][..1] == [1_000_000];
      assert col[..2][..1][..0] == [];
      assert Sum(col[..2][..1]) == 1_000_000;
      assert Sum(col[..2]) == 3_000_000;
    }
    assert Min(col) == 1_000_000 && Max(col) == 3_000_000;
    TruncateOfInteger(2_000_000);
    assert Mean(col) == 2_000_000 as real;
    assert IndexOf(col, 1_000_000) == 0;
    assert IndexOf(col, 3_000_000) == 2;
  }
}
