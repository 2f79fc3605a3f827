/** Values shared by every part of the backtest core: undefined ("NaN") values,
    error results, and the sums and means that the pandas expressions compute. */
module Common {

  /** A possibly undefined number. `None` stands for pandas' NaN: every
      comparison against it is false. */
  datatype Option<+T> = None | Some(value: T)

  /** The exceptions the core can raise. */
  datatype Error =
    | NoData                       // "No data available for backtesting."
    | KeyError(column: string)     // a column that a frame does not have
    | DuplicateColumn(column: string)
    | IndexError                   // a position past the end of a list

  datatype Result<+T> = Ok(value: T) | Err(error: Error) {
    predicate IsFailure() { Err? }
    function PropagateFailure<U>(): Result<U> requires Err? { Err(error) }
    function Extract(): T requires Ok? { value }
  }

  /** Outcome of an operation that changes state and returns nothing else. */
  datatype Outcome = Pass | Fail(error: Error)

  /** A bar's timestamp; the model only needs it as an opaque ordered value. */
  type Date = int

  /** One OHLCV bar of the input series. */
  datatype Bar = Bar(date: Date, open: real, high: real, low: real, close: real, volume: real)

  function Closes(bars: seq<Bar>): (cs: seq<real>)
    ensures |cs| == |bars| && forall i :: 0 <= i < |bars| ==> cs[i] == bars[i].close
  {
    seq(|bars|, i requires 0 <= i < |bars| => bars[i].close)
  }

  function Volumes(bars: seq<Bar>): (vs: seq<real>)
    ensures |vs| == |bars| && forall i :: 0 <= i < |bars| ==> vs[i] == bars[i].volume
  {
    seq(|bars|, i requires 0 <= i < |bars| => bars[i].volume)
  }

  /** Where Python puts a slice bound `k` of a sequence of length `n`: a
      negative bound counts from the end, and bounds are clamped to [0, n]. */
  function SliceIndex(n: nat, k: int): (r: nat)
    ensures r <= n
    ensures 0 <= k <= n ==> r == k
    ensures k < 0 ==> r == if n + k < 0 then 0 else n + k
  {
    if k < 0 then (if n + k < 0 then 0 else n + k)
    else if k > n then n
    else k
  }

  /** Python's `s[start:stop]` (also `iloc[start:stop]`). */
  function PySlice<T>(s: seq<T>, start: int, stop: int): (r: seq<T>)
    ensures var a, b := SliceIndex(|s|, start), SliceIndex(|s|, stop);
      r == if a < b then s[a..b] else []
  {
    var a, b := SliceIndex(|s|, start), SliceIndex(|s|, stop);
    if a < b then s[a..b] else []
  }

  function Abs(x: real): (r: real)
    ensures r >= 0.0 && (r == x || r == -x)
  {
    if x < 0.0 then -x else x
  }

  function Max(a: real, b: real): (m: real)
    ensures m >= a && m >= b && (m == a || m == b)
  {
    if a >= b then a else b
  }

  function Min(a: real, b: real): (m: real)
    ensures m <= a && m <= b && (m == a || m == b)
  {
    if b < a then b else a
  }

  /** `a > b` with NaN semantics. */
  predicate Greater(a: Option<real>, b: Option<real>)
  {
    a.Some? && b.Some? && a.value > b.value
  }

  /** `a < b` with NaN semantics. */
  predicate Less(a: Option<real>, b: Option<real>)
  {
    a.Some? && b.Some? && a.value < b.value
  }

  /** `a * k`; NaN stays NaN. */
  function Scale(a: Option<real>, k: real): Option<real>
  {
    if a.Some? then Some(a.value * k) else None
  }

  /** Sum of a sequence, accumulated from the front as `cumsum` does. */
  function Sum(s: seq<real>): real
    decreases |s|
  {
    if |s| == 0 then 0.0 else Sum(s[..|s| - 1]) + s[|s| - 1]
  }

  /** pandas' `mean()`: NaN on an empty selection. */
  function Mean(s: seq<real>): (m: Option<real>)
    ensures m.Some? <==> |s| > 0
    ensures m.Some? ==> m.value * |s| as real == Sum(s)
  {
    if |s| == 0 then None else Some(Sum(s) / |s| as real)
  }

  lemma {:induction false} SumAppend(s: seq<real>, t: seq<real>)
    ensures Sum(s + t) == Sum(s) + Sum(t)
    decreases |t|
  {
    if |t| == 0 {
      assert s + t == s;
    } else {
      assert (s + t)[..|s + t| - 1] == s + t[..|t| - 1];
      SumAppend(s, t[..|t| - 1]);
    }
  }

  /** A sum of values that lie in [lo, hi] lies in [n * lo, n * hi]. */
  lemma {:induction false} SumBounds(s: seq<real>, lo: real, hi: real)
    requires forall k :: 0 <= k < |s| ==> lo <= s[k] <= hi
    ensures |s| as real * lo <= Sum(s) <= |s| as real * hi
    decreases |s|
  {
    if |s| > 0 {
      var n := |s| as real;
      SumBounds(s[..|s| - 1], lo, hi);
      assert Sum(s) == Sum(s[..|s| - 1]) + s[|s| - 1];
      assert (n - 1.0) * lo + lo == n * lo;
      assert (n - 1.0) * hi + hi == n * hi;
    }
  }

  /** Every element multiplied by k. */
  function Times(k: real, s: seq<real>): (r: seq<real>)
    ensures |r| == |s| && forall j :: 0 <= j < |s| ==> r[j] == k * s[j]
  {
    seq(|s|, j requires 0 <= j < |s| => k * s[j])
  }

  /** A constant factor comes out of a sum. */
  lemma {:induction false} SumTimes(k: real, s: seq<real>)
    ensures Sum(Times(k, s)) == k * Sum(s)
    decreases |s|
  {
    if |s| > 0 {
      var n := |s|;
      forall j | 0 <= j < n - 1 ensures Times(k, s)[j] == Times(k, s[..n - 1])[j] { }
      assert Times(k, s)[..n - 1] == Times(k, s[..n - 1]);
      SumTimes(k, s[..n - 1]);
      Distribute(k, Sum(s[..n - 1]), s[n - 1]);
    }
  }

  lemma Distribute(k: real, a: real, b: real)
    ensures k * (a + b) == k * a + k * b
  {
  }

  /** Sums keep an element-wise order. */
  lemma {:induction false} SumMono(a: seq<real>, b: seq<real>)
    requires |a| == |b|
    requires forall j :: 0 <= j < |a| ==> a[j] <= b[j]
    ensures Sum(a) <= Sum(b)
    decreases |a|
  {
    if |a| > 0 {
      SumMono(a[..|a| - 1], b[..|b| - 1]);
    }
  }

  /** Weighted values that each lie between lo and hi times their weight sum
      to between lo and hi times the total weight. */
  lemma WeightedSumBounds(p: seq<real>, w: seq<real>, lo: real, hi: real)
    requires |p| == |w|
    requires forall j :: 0 <= j < |p| ==> lo * w[j] <= p[j] <= hi * w[j]
    ensures lo * Sum(w) <= Sum(p) <= hi * Sum(w)
  {
    SumMono(Times(lo, w), p);
    SumMono(p, Times(hi, w));
    SumTimes(lo, w);
    SumTimes(hi, w);
  }

  /** A non-negative weight keeps the order of lo <= c <= hi. */
  lemma ScaledBetween(c: real, w: real, lo: real, hi: real)
    requires w >= 0.0 && lo <= c <= hi
    ensures lo * w <= c * w <= hi * w
  {
    NonNegProduct(c - lo, w);
    NonNegProduct(hi - c, w);
  }

  /** A quotient by a positive denominator of a numerator between lo and hi
      times that denominator lies between lo and hi. */
  lemma RatioBetween(num: real, den: real, lo: real, hi: real)
    requires den > 0.0 && lo * den <= num <= hi * den
    ensures lo <= num / den <= hi
  {
    DivMono(lo * den, num, den);
    DivMono(num, hi * den, den);
    assert lo * den / den == lo && hi * den / den == hi;
  }

  /** The product of two non-negative numbers is non-negative. */
  lemma NonNegProduct(a: real, b: real)
    requires a >= 0.0 && b >= 0.0
    ensures a * b >= 0.0
  {
  }

  /** Dividing by a positive number keeps the order. */
  lemma DivMono(x: real, y: real, n: real)
    requires x <= y && n > 0.0
    ensures x / n <= y / n
  {
    assert y / n - x / n == (y - x) / n;
  }

  /** The mean of values in [lo, hi] lies in [lo, hi]. */
  lemma MeanBounds(s: seq<real>, lo: real, hi: real)
    requires |s| > 0
    requires forall k :: 0 <= k < |s| ==> lo <= s[k] <= hi
    ensures lo <= Mean(s).value <= hi
  {
    SumBounds(s, lo, hi);
    var n := |s| as real;
    DivMono(n * lo, Sum(s), n);
    DivMono(Sum(s), n * hi, n);
    assert (n * lo) / n == lo && (n * hi) / n == hi;
  }

  lemma {:induction false} SumConstant(s: seq<real>, c: real)
    requires forall k :: 0 <= k < |s| ==> s[k] == c
    ensures Sum(s) == |s| as real * c
    decreases |s|
  {
    if |s| > 0 {
      SumConstant(s[..|s| - 1], c);
    }
  }
}
