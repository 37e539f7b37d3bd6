/** The Wilson score interval of a pass rate, over exact reals, and the rule by which one arm of a comparison wins. The square
    root is a parameter that squares to its radicand. */
module Wilson {
  datatype Interval = Interval(lo: real, hi: real)

  function Rate(s: int, n: int): real {
    if n == 0 then 0.0 else s as real / n as real
  }

  function Radicand(s: int, n: int, z: real): real
    requires n > 0
  {
    (Rate(s, n) * (1.0 - Rate(s, n)) + z * z / (4 * n) as real) / n as real
  }

  ghost predicate IsRoot(root: real, s: int, n: int, z: real) {
    n > 0 ==> root >= 0.0 && root * root == Radicand(s, n, z)
  }

  function Unclamped(s: int, n: int, z: real, root: real): Interval
    requires n > 0
  {
    var denominator := 1.0 + z * z / n as real;
    var center := (Rate(s, n) + z * z / (2 * n) as real) / denominator;
    var margin := z * root / denominator;
    Interval(center - margin, center + margin)
  }

  function WilsonInterval(s: int, n: int, z: real, root: real): Interval {
    if n <= 0 then Interval(0.0, 1.0)
    else
      var i := Unclamped(s, n, z, root);
      Interval(if i.lo > 0.0 then i.lo else 0.0, if i.hi < 1.0 then i.hi else 1.0)
  }

  predicate Disjoint(a: Interval, b: Interval) {
    a.hi < b.lo || b.hi < a.lo
  }

  // ------------------------------------------------------------------ the quadratic behind the interval

  /** How far `x` is outside the score interval of the rate `p`, with q = z²/n. */
  function Excess(x: real, p: real, q: real): real {
    (x - p) * (x - p) - q * (x * (1.0 - x))
  }

  /** `i` is where the excess is not positive: its center c and margin m solve (1+q)·c = p + q/2 and (1+q)·(c²−m²) = p². */
  ghost predicate Solves(i: Interval, p: real, q: real) {
    && q >= 0.0 && i.lo <= i.hi
    && (1.0 + q) * (i.lo + i.hi) == 2.0 * p + q
    && (1.0 + q) * (i.lo * i.hi) == p * p
  }

  lemma ExcessFactors(i: Interval, x: real, p: real, q: real)
    requires Solves(i, p, q)
    ensures Excess(x, p, q) == (1.0 + q) * ((x - i.lo) * (x - i.hi))
  {
    var A := 1.0 + q;
    calc {
      Excess(x, p, q);
      x * x - 2.0 * p * x + p * p - q * x + q * (x * x);
      A * (x * x) - (2.0 * p + q) * x + p * p;
      A * (x * x) - (A * (i.lo + i.hi)) * x + A * (i.lo * i.hi);
      A * (x * x - (i.lo + i.hi) * x + i.lo * i.hi);
      A * ((x - i.lo) * (x - i.hi));
    }
  }

  lemma ProductPositive(u: real, v: real)
    requires u > 0.0 && v > 0.0
    ensures u * v > 0.0
  {
  }

  lemma NotNegative(u: real, v: real)
    requires u >= 0.0 && v >= 0.0
    ensures u * v >= 0.0
  {
    if u > 0.0 && v > 0.0 {
      ProductPositive(u, v);
    }
  }

  lemma SignScales(A: real, x: real)
    requires A > 0.0
    ensures A * x <= 0.0 <==> x <= 0.0
    ensures A * x < 0.0 <==> x < 0.0
  {
    if x > 0.0 {
      ProductPositive(A, x);
    } else if x < 0.0 {
      ProductPositive(A, 0.0 - x);
      assert A * (0.0 - x) == 0.0 - A * x;
    }
  }

  lemma ZeroProduct(x: real)
    ensures 0.0 * x == 0.0 && x * 0.0 == 0.0
  {
  }

  lemma SignOfProduct(u: real, v: real)
    requires u >= v
    ensures u * v <= 0.0 <==> u >= 0.0 >= v
    ensures u * v < 0.0 <==> u > 0.0 > v
  {
    if v > 0.0 {
      ProductPositive(u, v);
    } else if u < 0.0 {
      ProductPositive(0.0 - u, 0.0 - v);
      assert (0.0 - u) * (0.0 - v) == u * v;
    } else if u > 0.0 > v {
      ProductPositive(u, 0.0 - v);
      assert u * (0.0 - v) == 0.0 - u * v;
    } else if u == 0.0 {
      ZeroProduct(v);
    } else {
      ZeroProduct(u);
    }
  }

  lemma SignsAgree(e: real, A: real, u: real, v: real)
    requires A > 0.0 && u >= v && e == A * (u * v)
    ensures e <= 0.0 <==> u >= 0.0 >= v
    ensures e < 0.0 <==> u > 0.0 > v
  {
    var w := u * v;
    SignScales(A, w);
    SignOfProduct(u, v);
  }

  /** The interval holds exactly the values whose excess is not positive. */
  lemma InsideExactlyWhen(i: Interval, x: real, p: real, q: real)
    requires Solves(i, p, q)
    ensures i.lo <= x <= i.hi <==> Excess(x, p, q) <= 0.0
    ensures i.lo < x < i.hi <==> Excess(x, p, q) < 0.0
  {
    ExcessFactors(i, x, p, q);
    SignsAgree(Excess(x, p, q), 1.0 + q, x - i.lo, x - i.hi);
  }

  lemma IntervalSolves(p: real, q: real, c: real, m: real)
    requires q >= 0.0 && m >= 0.0
    requires (1.0 + q) * c == p + q / 2.0
    requires ((1.0 + q) * m) * ((1.0 + q) * m) == q * (p * (1.0 - p)) + q * q / 4.0
    ensures Solves(Interval(c - m, c + m), p, q)
  {
    var A := 1.0 + q;
    calc {
      A * (A * ((c - m) * (c + m)));
      (A * c) * (A * c) - (A * m) * (A * m);
      (p + q / 2.0) * (p + q / 2.0) - (q * (p * (1.0 - p)) + q * q / 4.0);
      A * (p * p);
    }
    Cancel(A, A * ((c - m) * (c + m)), p * p);
  }

  lemma Cancel(a: real, x: real, y: real)
    requires a != 0.0 && a * x == a * y
    ensures x == y
  {
  }

  /** What the code computes solves the quadratic. */
  lemma UnclampedSolves(s: int, n: int, z: real, root: real)
    requires n > 0 && z >= 0.0 && IsRoot(root, s, n, z)
    ensures Solves(Unclamped(s, n, z, root), Rate(s, n), z * z / n as real)
  {
    var p, N := Rate(s, n), n as real;
    var q := z * z / N;
    var A := 1.0 + q;
    var c, m := (p + z * z / (2 * n) as real) / A, z * root / A;
    Halves(z * z, n);
    SquareNotNegative(z, N);
    Quotient(p + q / 2.0, A);
    Quotient(z * root, A);
    QuotientNotNegative(z * root, A);
    SolvesByParts(p, N, z, root, c, m);
  }

  lemma SolvesByParts(p: real, n: real, z: real, root: real, c: real, m: real)
    requires n > 0.0 && m >= 0.0 && root * root == (p * (1.0 - p) + z * z / n / 4.0) / n
    requires (1.0 + z * z / n) * c == p + z * z / n / 2.0 && (1.0 + z * z / n) * m == z * root
    ensures Solves(Interval(c - m, c + m), p, z * z / n)
  {
    SquareNotNegative(z, n);
    MarginSquared(z, root, p * (1.0 - p), n);
    IntervalSolves(p, z * z / n, c, m);
  }

  lemma SquareNotNegative(z: real, n: real)
    requires n > 0.0
    ensures z * z / n >= 0.0
  {
    assert z * z >= 0.0;
  }

  lemma Quotient(x: real, a: real)
    requires a != 0.0
    ensures a * (x / a) == x
  {
  }

  lemma QuotientNotNegative(x: real, a: real)
    requires x >= 0.0 && a > 0.0
    ensures x / a >= 0.0
  {
  }

  /** With the root of (v + z²/4n)/n for `root`, `z * root` squared is q·v + q²/4 for q = z²/n. */
  lemma MarginSquared(z: real, root: real, v: real, n: real)
    requires n > 0.0 && root * root == (v + z * z / n / 4.0) / n
    ensures var q := z * z / n; (z * root) * (z * root) == q * v + q * q / 4.0
  {
    var q := z * z / n;
    calc {
      (z * root) * (z * root);
      (z * z) * (root * root);
      (z * z) * ((v + q / 4.0) / n);
      q * (v + q / 4.0);
      q * v + q * q / 4.0;
    }
  }

  lemma Halves(x: real, n: int)
    requires n > 0
    ensures x / (2 * n) as real == x / n as real / 2.0
    ensures x / (4 * n) as real == x / n as real / 4.0
  {
    var N := n as real;
    assert (2 * n) as real == 2.0 * N && (4 * n) as real == 4.0 * N;
  }

  // ------------------------------------------------------------------ where the interval lies

  lemma RateIsProportion(s: int, n: int)
    requires n > 0 && 0 <= s <= n
    ensures 0.0 <= Rate(s, n) <= 1.0 && Rate(s, n) * n as real == s as real
  {
  }

  lemma ExcessAtRate(p: real, q: real)
    requires q >= 0.0 && 0.0 <= p <= 1.0
    ensures Excess(p, p, q) <= 0.0 && Excess(0.0, p, q) >= 0.0 && Excess(1.0, p, q) >= 0.0
  {
    NotNegative(p, 1.0 - p);
    NotNegative(q, p * (1.0 - p));
    NotNegative(p, p);
    NotNegative(1.0 - p, 1.0 - p);
    assert Excess(0.0, p, q) == p * p;
    assert Excess(1.0, p, q) == (1.0 - p) * (1.0 - p);
  }

  /** An interval that reduces to its end at 0 or 1 does not reach over it. */
  lemma EndsAtExtremes(i: Interval, p: real, q: real)
    requires Solves(i, p, q)
    ensures i.hi == 0.0 == p ==> i.lo >= 0.0
    ensures i.lo == 1.0 == p ==> i.hi <= 1.0
  {
    if i.hi == 0.0 == p {
      assert (1.0 + q) * i.lo == q;
      SignScales(1.0 + q, i.lo);
    }
    if i.lo == 1.0 == p {
      assert (1.0 + q) * (i.hi - 1.0) == 0.0 - q;
      SignScales(1.0 + q, i.hi - 1.0);
    }
  }

  lemma SolutionLies(i: Interval, p: real, q: real)
    requires Solves(i, p, q) && 0.0 <= p <= 1.0
    ensures 0.0 <= i.lo <= p <= i.hi <= 1.0
  {
    ExcessAtRate(p, q);
    InsideExactlyWhen(i, p, p, q);
    InsideExactlyWhen(i, 0.0, p, q);
    InsideExactlyWhen(i, 1.0, p, q);
    EndsAtExtremes(i, p, q);
  }

  /** The interval contains the observed rate and lies within [0, 1] before it is clamped, so clamping changes nothing. */
  lemma IntervalLies(s: int, n: int, z: real, root: real)
    requires n > 0 && 0 <= s <= n && z >= 0.0 && IsRoot(root, s, n, z)
    ensures var i := WilsonInterval(s, n, z, root);
            i == Unclamped(s, n, z, root) && 0.0 <= i.lo <= Rate(s, n) <= i.hi <= 1.0
  {
    RateIsProportion(s, n);
    UnclampedSolves(s, n, z, root);
    SolutionLies(Unclamped(s, n, z, root), Rate(s, n), z * z / n as real);
  }

  /** The interval inverts the score test: it holds exactly the rates `x` within z standard errors of the observed one,
      (x−p)² ≤ (z²/n)·x(1−x). */
  lemma IntervalInvertsScoreTest(s: int, n: int, z: real, root: real, x: real)
    requires n > 0 && 0 <= s <= n && z >= 0.0 && IsRoot(root, s, n, z)
    ensures var i := WilsonInterval(s, n, z, root);
            i.lo <= x <= i.hi <==> Excess(x, Rate(s, n), z * z / n as real) <= 0.0
  {
    IntervalLies(s, n, z, root);
    UnclampedSolves(s, n, z, root);
    InsideExactlyWhen(Unclamped(s, n, z, root), x, Rate(s, n), z * z / n as real);
  }

  // ------------------------------------------------------------------ monotone in the number of successes

  lemma ExcessShifts(x: real, p1: real, p2: real, q: real)
    ensures Excess(x, p2, q) == Excess(x, p1, q) - (p2 - p1) * (2.0 * x - p1 - p2)
  {
  }

  lemma BoundaryMovesInside(x: real, p1: real, p2: real, q: real)
    requires p1 < p2
    ensures Excess(x, p1, q) == 0.0 && 2.0 * x > p1 + p2 ==> Excess(x, p2, q) < 0.0
    ensures Excess(x, p2, q) == 0.0 && 2.0 * x < p1 + p2 ==> Excess(x, p1, q) < 0.0
  {
    ExcessShifts(x, p1, p2, q);
    SignScales(p2 - p1, 2.0 * x - p1 - p2);
    SignScales(p2 - p1, p1 + p2 - 2.0 * x);
    assert (p2 - p1) * (p1 + p2 - 2.0 * x) == 0.0 - (p2 - p1) * (2.0 * x - p1 - p2);
  }

  lemma EndsOnBoundary(i: Interval, p: real, q: real)
    requires Solves(i, p, q)
    ensures Excess(i.lo, p, q) == 0.0 && Excess(i.hi, p, q) == 0.0
  {
    ExcessFactors(i, i.lo, p, q);
    ExcessFactors(i, i.hi, p, q);
  }

  lemma SolutionRises(i1: Interval, i2: Interval, p1: real, p2: real, q: real)
    requires Solves(i1, p1, q) && Solves(i2, p2, q) && 0.0 <= p1 < p2 <= 1.0
    ensures i1.lo < i2.lo && i1.hi < i2.hi
  {
    SolutionLies(i1, p1, q);
    SolutionLies(i2, p2, q);
    EndsOnBoundary(i1, p1, q);
    EndsOnBoundary(i2, p2, q);
    BoundaryMovesInside(i1.hi, p1, p2, q);
    BoundaryMovesInside(i2.lo, p1, p2, q);
    InsideExactlyWhen(i2, i1.hi, p2, q);
    InsideExactlyWhen(i1, i2.lo, p1, q);
  }

  lemma RateRises(s1: int, s2: int, n: int)
    requires n > 0 && s1 < s2
    ensures Rate(s1, n) < Rate(s2, n)
  {
  }

  /** With the number of trials fixed, one more success raises both ends. */
  lemma IntervalRises(s1: int, s2: int, n: int, z: real, root1: real, root2: real)
    requires n > 0 && 0 <= s1 < s2 <= n && z >= 0.0 && IsRoot(root1, s1, n, z) && IsRoot(root2, s2, n, z)
    ensures var i1, i2 := WilsonInterval(s1, n, z, root1), WilsonInterval(s2, n, z, root2);
            i1.lo < i2.lo && i1.hi < i2.hi
  {
    IntervalLies(s1, n, z, root1);
    IntervalLies(s2, n, z, root2);
    UnclampedSolves(s1, n, z, root1);
    UnclampedSolves(s2, n, z, root2);
    RateIsProportion(s1, n);
    RateIsProportion(s2, n);
    RateRises(s1, s2, n);
    SolutionRises(Unclamped(s1, n, z, root1), Unclamped(s2, n, z, root2), Rate(s1, n), Rate(s2, n), z * z / n as real);
  }

  // ------------------------------------------------------------------ perfect splits

  /** The quadratic at the two extremes: 0 of n gives [0, q/(1+q)], n of n gives [1/(1+q), 1]. */
  lemma ExtremeSolutions(none: Interval, all: Interval, q: real)
    requires Solves(none, 0.0, q) && Solves(all, 1.0, q)
    ensures none.lo == 0.0 && (1.0 + q) * none.hi == q
    ensures all.hi == 1.0 && (1.0 + q) * all.lo == 1.0
  {
    SolutionLies(none, 0.0, q);
    SolutionLies(all, 1.0, q);
    assert none.lo + none.hi == none.hi;
    assert all.lo * all.hi == all.lo * 1.0 == all.lo;
  }

  lemma EndsApart(a: real, b: real, q: real)
    requires q >= 0.0 && (1.0 + q) * a == q && (1.0 + q) * b == 1.0
    ensures a < b <==> q < 1.0
  {
    var A, d := 1.0 + q, a - b;
    assert A * d == A * a - A * b;
    SignScales(A, d);
  }

  lemma QuotientBelowOne(n: int, z: real)
    requires n > 0
    ensures z * z / n as real < 1.0 <==> n as real > z * z
  {
    var q, N := z * z / n as real, n as real;
    assert q * N == z * z;
    SignScales(N, q - 1.0);
    assert N * (q - 1.0) == z * z - N;
  }

  lemma ExtremeRates(n: int)
    requires n > 0
    ensures Rate(0, n) == 0.0 && Rate(n, n) == 1.0
  {
    RateIsProportion(n, n);
    Cancel(n as real, Rate(n, n), 1.0);
  }

  /** An all-against-none split of n trials each is disjoint exactly when n > z². */
  lemma PerfectSplitDisjointExactlyWhen(n: int, z: real, root0: real, rootN: real)
    requires n > 0 && z >= 0.0 && IsRoot(root0, 0, n, z) && IsRoot(rootN, n, n, z)
    ensures Disjoint(WilsonInterval(0, n, z, root0), WilsonInterval(n, n, z, rootN)) <==> n as real > z * z
  {
    IntervalLies(0, n, z, root0);
    IntervalLies(n, n, z, rootN);
    UnclampedSolves(0, n, z, root0);
    UnclampedSolves(n, n, z, rootN);
    ExtremeRates(n);
    var none, all := Unclamped(0, n, z, root0), Unclamped(n, n, z, rootN);
    ExtremeSolutions(none, all, z * z / n as real);
    EndsApart(none.hi, all.lo, z * z / n as real);
    QuotientBelowOne(n, z);
  }

  /** At z = 1.96 four trials are enough; the comparison's documentation says five. */
  lemma FourTrialsSeparate(n: int, root0: real, rootN: real)
    requires n > 0 && IsRoot(root0, 0, n, 1.96) && IsRoot(rootN, n, n, 1.96)
    ensures Disjoint(WilsonInterval(0, n, 1.96, root0), WilsonInterval(n, n, 1.96, rootN)) <==> n >= 4
  {
    PerfectSplitDisjointExactlyWhen(n, 1.96, root0, rootN);
    assert 1.96 * 1.96 == 3.8416;
  }

  // ------------------------------------------------------------------ the win rule

  const Z: real := 1.96

  /** One arm of a comparison; `root` is the square root its interval needs. */
  datatype Arm = Arm(passed: int, trials: int, root: real)

  ghost predicate IsArm(a: Arm) {
    0 <= a.passed <= a.trials && IsRoot(a.root, a.passed, a.trials, Z)
  }

  function ArmInterval(a: Arm): Interval {
    WilsonInterval(a.passed, a.trials, Z, a.root)
  }

  function Wins(baseline: Arm, variant: Arm, minTrials: int): bool {
    && Rate(variant.passed, variant.trials) > Rate(baseline.passed, baseline.trials)
    && Disjoint(ArmInterval(baseline), ArmInterval(variant))
    && baseline.trials >= minTrials && variant.trials >= minTrials
  }

  lemma ArmLies(a: Arm)
    requires IsArm(a)
    ensures 0.0 <= ArmInterval(a).lo <= Rate(a.passed, a.trials) <= ArmInterval(a).hi <= 1.0
  {
    if a.trials > 0 {
      IntervalLies(a.passed, a.trials, Z, a.root);
    }
  }

  /** A variant wins exactly when both arms have enough trials and its whole interval lies above the baseline's. */
  lemma WinsExactlyWhen(baseline: Arm, variant: Arm, minTrials: int)
    requires IsArm(baseline) && IsArm(variant)
    ensures Wins(baseline, variant, minTrials) <==>
              && baseline.trials >= minTrials && variant.trials >= minTrials
              && ArmInterval(baseline).hi < ArmInterval(variant).lo
  {
    ArmLies(baseline);
    ArmLies(variant);
  }

  /** Two arms never both win against each other, and a win cannot be lost by more successes of the variant over the same
      trials. */
  lemma WinningIsConsistent(baseline: Arm, variant: Arm, better: Arm, minTrials: int)
    requires IsArm(baseline) && IsArm(variant) && IsArm(better)
    requires better.trials == variant.trials && better.passed > variant.passed
    requires Wins(baseline, variant, minTrials)
    ensures !Wins(variant, baseline, minTrials)
    ensures Wins(baseline, better, minTrials)
  {
    WinsExactlyWhen(baseline, variant, minTrials);
    WinsExactlyWhen(variant, baseline, minTrials);
    WinsExactlyWhen(baseline, better, minTrials);
    IntervalRises(variant.passed, better.passed, variant.trials, Z, variant.root, better.root);
  }

  /** An arm without trials is disjoint from no interval of rates, so it decides nothing. */
  lemma NoTrialsDecideNothing(s: int, n: int, z: real, root: real, i: Interval)
    requires n <= 0 && 0.0 <= i.lo <= i.hi <= 1.0
    ensures !Disjoint(WilsonInterval(s, n, z, root), i) && !Disjoint(i, WilsonInterval(s, n, z, root))
  {
  }
}
