/** The process-capability engine: count, mean, Bessel-corrected standard
    deviation, Cp, Cpk and a three-tier status for a sample of measurements
    against an upper and a lower specification limit. Arithmetic is exact
    over `real`; the square root is the caller-supplied `root`. */
module StatsEngine {

  /** Which per-value term a fold adds up: the value itself (the mean's
      fold) or its squared deviation from a centre (the variance's fold). */
  datatype Fold = Value | SquaredDeviation(centre: real)

  function Term(k: Fold, x: real): real
  {
    match k
    case Value => x
    case SquaredDeviation(m) => (x - m) * (x - m)
  }

  /** The sum of the chosen term over the sample, front to back. */
  function SumOf(s: seq<real>, k: Fold): real
  {
    if s == [] then 0.0 else Term(k, s[0]) + SumOf(s[1..], k)
  }

  /** Unfolding the sum of a sample with a known first element. */
  lemma SumOfCons(x: real, s: seq<real>, k: Fold)
    ensures SumOf([x] + s, k) == Term(k, x) + SumOf(s, k)
  {
    assert ([x] + s)[1..] == s;
  }

  /** The sum of the sample. */
  function Sum(s: seq<real>): real { SumOf(s, Value) }

  /** The sum of squared deviations from `m`. */
  function SumSqDev(s: seq<real>, m: real): real { SumOf(s, SquaredDeviation(m)) }

  function Mean(s: seq<real>): real
    requires s != []
  {
    Sum(s) / |s| as real
  }

  function Min(a: real, b: real): (m: real)
    ensures m <= a && m <= b && (m == a || m == b)
  {
    if a <= b then a else b
  }

  /** `root` behaves as the square root on the non-negative reals. */
  ghost predicate IsSquareRoot(root: real -> real)
  {
    forall v {:trigger root(v)} :: 0.0 <= v ==> 0.0 <= root(v) && root(v) * root(v) == v
  }

  datatype Status = Optimal | Acceptable | Critical

  /** Tiers ordered from worst (0) to best (2). */
  function Rank(st: Status): nat
  {
    match st
    case Critical => 0
    case Acceptable => 1
    case Optimal => 2
  }

  /** The status tier of an (unrounded) Cpk: each tier's lower bound is
      inclusive, and exactly one tier applies. */
  function Classify(cpk: real): (st: Status)
    ensures st == Optimal <==> 1.33 <= cpk
    ensures st == Acceptable <==> 1.0 <= cpk < 1.33
    ensures st == Critical <==> cpk < 1.0
  {
    if cpk >= 1.33 then Optimal else if cpk >= 1.0 then Acceptable else Critical
  }

  /** A larger Cpk never yields a worse tier. */
  lemma ClassifyMonotone(a: real, b: real)
    requires a <= b
    ensures Rank(Classify(a)) <= Rank(Classify(b))
  {
  }

  /** The boundaries named by the capability convention. */
  lemma ClassifyBoundaries()
    ensures Classify(1.33) == Optimal
    ensures Classify(1.329999) == Acceptable
    ensures Classify(1.0) == Acceptable
    ensures Classify(0.999999) == Critical
  {
  }

  datatype Report = Report(count: nat, mean: real, stdDev: real, cp: real, cpk: real, status: Status)

  /** The engine's answer: no data, a sample whose spread is zero or
      undefined (one point, or all points equal), or a full report. */
  datatype Capability =
    | NoData
    | DegenerateVariance(count: nat, mean: real)
    | Capable(report: Report)
  {
    /** The number of measurements, whenever there is a sample. */
    function Count(): nat
      requires !NoData?
    {
      if DegenerateVariance? then count else report.count
    }

    /** The sample mean, whenever there is a sample. */
    function SampleMean(): real
      requires !NoData?
    {
      if DegenerateVariance? then mean else report.mean
    }
  }

  /** A non-zero square is positive. */
  lemma SquarePositive(d: real)
    requires d != 0.0
    ensures d * d > 0.0
  {
    if d < 0.0 {
      assert d * d == (-d) * (-d);
    }
  }

  /** Squaring preserves the order of non-negative reals. */
  lemma SquareOrder(a: real, b: real)
    requires 0.0 <= a && 0.0 <= b
    ensures a <= b <==> a * a <= b * b
  {
    if a <= b {
      assert a * a <= a * b <= b * b;
    } else {
      var d := a - b;
      assert a * a == b * b + d * (a + b);
      assert d * (a + b) > 0.0;
    }
  }

  /** Cp, Cpk and the status for a mean and a positive standard deviation:
      Cp is the tolerance over six sigma, Cpk the smaller of the two
      one-sided indices, and the status the tier of that Cpk. */
  function Indices(count: nat, mean: real, stdDev: real, usl: real, lsl: real): (r: Report)
    requires stdDev > 0.0
    ensures r.count == count && r.mean == mean && r.stdDev == stdDev
    ensures r.cp * (6.0 * stdDev) == usl - lsl
    ensures r.cpk * (3.0 * stdDev) <= usl - mean
    ensures r.cpk * (3.0 * stdDev) <= mean - lsl
    ensures r.cpk * (3.0 * stdDev) == usl - mean || r.cpk * (3.0 * stdDev) == mean - lsl
    ensures r.status == Classify(r.cpk)
  {
    var cpkUpper := (usl - mean) / (3.0 * stdDev);
    var cpkLower := (mean - lsl) / (3.0 * stdDev);
    var cpk := Min(cpkUpper, cpkLower);
    assert cpkUpper * (3.0 * stdDev) == usl - mean;
    assert cpkLower * (3.0 * stdDev) == mean - lsl;
    Report(count, mean, stdDev, (usl - lsl) / (6.0 * stdDev), cpk, Classify(cpk))
  }

  /** The report for `data` against `usl` and `lsl`. Where the source
      divides by zero (a single point, or zero spread) the result is
      DegenerateVariance instead of a NaN or infinite index. */
  function CalculateStats(data: seq<real>, usl: real, lsl: real, root: real -> real): (c: Capability)
    requires IsSquareRoot(root)
    ensures c.NoData? <==> data == []
    ensures !c.NoData? ==> c.Count() == |data| && c.SampleMean() * |data| as real == Sum(data)
    ensures c.DegenerateVariance? <==> |data| == 1 || (|data| >= 2 && SumSqDev(data, Mean(data)) == 0.0)
    ensures c.Capable? ==>
              && c.report.stdDev > 0.0
              && c.report.stdDev * c.report.stdDev * (|data| - 1) as real == SumSqDev(data, c.report.mean)
              && c.report == Indices(|data|, c.report.mean, c.report.stdDev, usl, lsl)
  {
    if data == [] then NoData
    else
      var mean := Mean(data);
      if |data| == 1 then DegenerateVariance(|data|, mean)
      else
        var ss := SumSqDev(data, mean);
        SumSqDevNonNegative(data, mean);
        if ss == 0.0 then DegenerateVariance(|data|, mean)
        else
          var variance := ss / (|data| - 1) as real;
          var stdDev := root(variance);
          assert stdDev * stdDev == variance;
          Capable(Indices(|data|, mean, stdDev, usl, lsl))
  }

  /** Squared deviations are never negative, so neither is their sum. */
  lemma {:induction false} SumSqDevNonNegative(s: seq<real>, m: real)
    ensures SumSqDev(s, m) >= 0.0
  {
    if s != [] {
      SumSqDevNonNegative(s[1..], m);
      if s[0] != m {
        SquarePositive(s[0] - m);
      }
    }
  }

  /** Removing one element from anywhere in the sample takes exactly its
      term out of the sum. */
  lemma {:induction false} SumOfRemove(s: seq<real>, j: nat, k: Fold)
    requires j < |s|
    ensures SumOf(s, k) == Term(k, s[j]) + SumOf(s[..j] + s[j + 1..], k)
  {
    if j > 0 {
      SumOfRemove(s[1..], j - 1, k);
      assert s[1..][..j - 1] + s[1..][j..] == (s[..j] + s[j + 1..])[1..];
    } else {
      assert s[..j] + s[j + 1..] == s[1..];
    }
  }

  /** Two samples with the same values: the first element of one occurs at
      some position of the other, and what is left of each still has the
      same values. */
  lemma MatchFirst(a: seq<real>, b: seq<real>) returns (j: nat)
    requires multiset(a) == multiset(b)
    requires a != []
    ensures j < |b| && b[j] == a[0]
    ensures multiset(a[1..]) == multiset(b[..j] + b[j + 1..])
  {
    assert a[0] in multiset(b);
    j :| 0 <= j < |b| && b[j] == a[0];
    assert a == [a[0]] + a[1..];
    calc {
      multiset(b[..j] + b[j + 1..]);
      { assert b == b[..j] + [b[j]] + b[j + 1..]; }
      multiset(b) - multiset{b[j]};
      multiset(a) - multiset{a[0]};
      multiset(a[1..]);
    }
  }

  /** A sum over the sample does not depend on the order of its elements. */
  lemma {:induction false} SumOfPermutation(a: seq<real>, b: seq<real>, k: Fold)
    requires multiset(a) == multiset(b)
    ensures SumOf(a, k) == SumOf(b, k)
    decreases |a|
  {
    if a == [] {
      assert |b| == |multiset(b)| == 0;
    } else {
      var j := MatchFirst(a, b);
      SumOfPermutation(a[1..], b[..j] + b[j + 1..], k);
      SumOfRemove(b, j, k);
    }
  }

  /** The whole result is independent of the order of the measurements:
      reordering the sample changes neither the mean nor the spread. */
  lemma CalculateStatsPermutation(a: seq<real>, b: seq<real>, usl: real, lsl: real, root: real -> real)
    requires IsSquareRoot(root)
    requires multiset(a) == multiset(b)
    ensures CalculateStats(a, usl, lsl, root) == CalculateStats(b, usl, lsl, root)
  {
    assert |a| == |multiset(a)| == |multiset(b)| == |b|;
    SumOfPermutation(a, b, Value);
    if a != [] {
      SumOfPermutation(a, b, SquaredDeviation(Mean(a)));
    }
  }

  /** When every value equals `m`, the squared deviations from `m` sum to zero. */
  lemma {:induction false} SumSqDevAtCentre(s: seq<real>, m: real)
    requires forall i :: 0 <= i < |s| ==> s[i] == m
    ensures SumSqDev(s, m) == 0.0
  {
    if s != [] {
      SumSqDevAtCentre(s[1..], m);
    }
  }

  /** A sample whose values all equal `c` sums to `|s| * c`. */
  lemma {:induction false} SumConstant(s: seq<real>, c: real)
    requires forall i :: 0 <= i < |s| ==> s[i] == c
    ensures Sum(s) == |s| as real * c
  {
    if s != [] {
      SumConstant(s[1..], c);
    }
  }

  /** A sample whose values are all equal has no spread: it is reported
      as DegenerateVariance, with that common value as its mean. */
  lemma ConstantSampleDegenerate(data: seq<real>, usl: real, lsl: real, root: real -> real)
    requires IsSquareRoot(root)
    requires data != []
    requires forall i :: 0 <= i < |data| ==> data[i] == data[0]
    ensures CalculateStats(data, usl, lsl, root) == DegenerateVariance(|data|, data[0])
  {
    SumConstant(data, data[0]);
    assert Sum(data) / |data| as real == data[0];
    SumSqDevAtCentre(data, data[0]);
  }

  /** One point has no sample spread. */
  lemma SinglePointIsDegenerate(x: real, usl: real, lsl: real, root: real -> real)
    requires IsSquareRoot(root)
    ensures CalculateStats([x], usl, lsl, root) == DegenerateVariance(1, x)
  {
    SumOfCons(x, [], Value);
    assert [x] + [] == [x];
  }

  /** Three equal readings of 10.0 against 9.5 .. 10.5: zero spread. */
  lemma ConstantSampleExample(root: real -> real)
    requires IsSquareRoot(root)
    ensures CalculateStats([10.0, 10.0, 10.0], 10.5, 9.5, root) == DegenerateVariance(3, 10.0)
  {
    ConstantSampleDegenerate([10.0, 10.0, 10.0], 10.5, 9.5, root);
  }

  /** The sample 9.8, 10.0, 10.2, 9.9, 10.1 against 9.5 .. 10.5 has mean 10,
      variance 0.1 / 4 = 0.025, a centred process (Cp == Cpk), and a Cpk of
      about 1.054, hence the ACCEPTABLE tier. */
  lemma WorkedExample(root: real -> real)
    requires IsSquareRoot(root)
    ensures var c := CalculateStats([9.8, 10.0, 10.2, 9.9, 10.1], 10.5, 9.5, root);
            && c.Capable?
            && c.report.count == 5
            && c.report.mean == 10.0
            && c.report.stdDev * c.report.stdDev == 0.025
            && c.report.cp == c.report.cpk
            && c.report.status == Acceptable
  {
    var data := [9.8, 10.0, 10.2, 9.9, 10.1];
    var s4, s3, s2, s1 := [10.1], [9.9, 10.1], [10.2, 9.9, 10.1], [10.0, 10.2, 9.9, 10.1];
    SumOfCons(10.1, [], Value);
    SumOfCons(9.9, s4, Value);
    SumOfCons(10.2, s3, Value);
    SumOfCons(10.0, s2, Value);
    SumOfCons(9.8, s1, Value);
    assert [10.1] + [] == s4 && [9.9] + s4 == s3 && [10.2] + s3 == s2 && [10.0] + s2 == s1 && [9.8] + s1 == data;
    assert Sum(data) == 50.0;
    var d := SquaredDeviation(10.0);
    SumOfCons(10.1, [], d);
    SumOfCons(9.9, s4, d);
    SumOfCons(10.2, s3, d);
    SumOfCons(10.0, s2, d);
    SumOfCons(9.8, s1, d);
    assert SumSqDev(data, 10.0) == 0.1;
    var c := CalculateStats(data, 10.5, 9.5, root);
    var sd := c.report.stdDev;
    assert sd * sd == 0.025;
    // Cpk == 0.5 / (3 sd) lies in [1, 1.33) because (0.5 / 3.99)^2 < sd * sd <= (1 / 6)^2.
    SquareOrder(sd, 1.0 / 6.0);
    SquareOrder(sd, 0.5 / 3.99);
    assert c.report.cpk * (3.0 * sd) == 0.5;
    assert c.report.cpk >= 1.0;
    assert c.report.cpk < 1.33;
  }
}
