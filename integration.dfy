/** The numeric part of the integrator (hw4/my_module.py, repeated in hw4/4.2_example.py):
    splitting [A, B] into equal pieces, the left-endpoint rectangle rule, and how a budget of
    iterations is divided among jobs. Python floats are modelled as mathematical reals and the
    integrand is any total function on them. */
module Integration {
  import opened Outcomes

  /** A sub-interval [lo, hi]: a two-element list [lo, hi] in the source. */
  datatype Interval = Interval(lo: real, hi: real)

  function Width(iv: Interval): real {
    iv.hi - iv.lo
  }

  /** The point i steps of size step after a. */
  function Sample(a: real, step: real, i: int): real {
    a + i as real * step
  }

  lemma SampleShift(a: real, step: real, m: int, k: int)
    ensures Sample(a, step, m + k) == Sample(Sample(a, step, m), step, k)
  {
    assert (m + k) as real * step == m as real * step + k as real * step;
  }

  lemma SampleSpan(a: real, b: real, n: int)
    requires n > 0
    ensures Sample(a, (b - a) / n as real, n) == b
  {
    assert n as real * ((b - a) / n as real) == b - a;
  }

  lemma SplitPieces(A: real, w: real, n: nat)
    ensures forall i :: 0 <= i < n ==> Sample(A, w, i + 1) - Sample(A, w, i) == w
  {
    forall i | 0 <= i < n ensures Sample(A, w, i + 1) - Sample(A, w, i) == w {
      SampleShift(A, w, i, 1);
    }
  }

  /** split_interval(A, B, n): n pieces of width (B - A) / n, the i-th starting at A + i * width.
      n == 0 divides by zero; a negative n gives an empty range and so an empty list. */
  function SplitInterval(A: real, B: real, n: int): (r: Outcome<seq<Interval>>)
    ensures n == 0 <==> r == Raised(ZeroDivisionError)
    ensures n < 0 ==> r == Ok([])
    ensures n > 0 ==> r.Ok? && |r.value| == n
    ensures n > 0 ==> r.value[0].lo == A && r.value[n - 1].hi == B
    ensures n > 0 ==> forall i :: 0 <= i < n - 1 ==> r.value[i].hi == r.value[i + 1].lo
    ensures n > 0 ==> forall i :: 0 <= i < n ==> Width(r.value[i]) == (B - A) / n as real
    ensures n > 0 ==> forall i :: 0 <= i < n ==>
      r.value[i] == Interval(Sample(A, (B - A) / n as real, i), Sample(A, (B - A) / n as real, i + 1))
  {
    if n == 0 then Raised(ZeroDivisionError)
    else if n < 0 then Ok([])
    else
      var w := (B - A) / n as real;
      SampleSpan(A, B, n);
      SplitPieces(A, w, n);
      Ok(seq(n, i => Interval(Sample(A, w, i), Sample(A, w, i + 1))))
  }

  /** The example of the docstring: [0, 10] in five pieces of width 2. */
  lemma SplitIntervalExample()
    ensures SplitInterval(0.0, 10.0, 5)
         == Ok([Interval(0.0, 2.0), Interval(2.0, 4.0), Interval(4.0, 6.0), Interval(6.0, 8.0), Interval(8.0, 10.0)])
  {
    var r := SplitInterval(0.0, 10.0, 5).value;
    var e := [Interval(0.0, 2.0), Interval(2.0, 4.0), Interval(4.0, 6.0), Interval(6.0, 8.0), Interval(8.0, 10.0)];
    assert (10.0 - 0.0) / 5 as real == 2.0;
    forall i | 0 <= i < 5 ensures r[i] == e[i] {
      assert r[i] == Interval(Sample(0.0, 2.0, i), Sample(0.0, 2.0, i + 1));
    }
    assert r == e;
  }

  /** The widths of the intervals, added up. */
  function TotalWidth(ivs: seq<Interval>): real {
    if ivs == [] then 0.0 else TotalWidth(ivs[..|ivs| - 1]) + Width(ivs[|ivs| - 1])
  }

  predicate Contiguous(ivs: seq<Interval>) {
    forall i :: 0 <= i < |ivs| - 1 ==> ivs[i].hi == ivs[i + 1].lo
  }

  /** Pieces that meet end to end have the width of the whole span between them. */
  lemma {:induction false} ContiguousTelescopes(ivs: seq<Interval>)
    requires |ivs| > 0 && Contiguous(ivs)
    ensures TotalWidth(ivs) == ivs[|ivs| - 1].hi - ivs[0].lo
    decreases |ivs|
  {
    if |ivs| > 1 {
      var init := ivs[..|ivs| - 1];
      assert Contiguous(init) by {
        forall i | 0 <= i < |init| - 1 ensures init[i].hi == init[i + 1].lo {
          assert init[i] == ivs[i] && init[i + 1] == ivs[i + 1];
        }
      }
      ContiguousTelescopes(init);
      assert ivs[|ivs| - 2].hi == ivs[|ivs| - 1].lo;
    }
  }

  /** The pieces of split_interval cover [A, B] exactly: their widths add up to B - A. */
  lemma SplitCovers(A: real, B: real, n: int)
    requires n > 0
    ensures TotalWidth(SplitInterval(A, B, n).value) == B - A
  {
    ContiguousTelescopes(SplitInterval(A, B, n).value);
  }

  /** f(a + i * step) * step summed for i = 0, 1, ..., n - 1, left to right. */
  function LeftSum(f: real -> real, a: real, step: real, n: nat): real {
    if n == 0 then 0.0 else LeftSum(f, a, step, n - 1) + f(Sample(a, step, n - 1)) * step
  }

  /** What integrate(f, a, b, n_iter) returns: the left rectangle sum over n_iter samples with
      step (b - a) / n_iter. n_iter == 0 divides by zero; a negative n_iter runs no iteration. */
  function IntegrateResult(f: real -> real, a: real, b: real, nIter: int): Outcome<real> {
    if nIter == 0 then Raised(ZeroDivisionError)
    else if nIter < 0 then Ok(0.0)
    else Ok(LeftSum(f, a, (b - a) / nIter as real, nIter))
  }

  /** integrate(f, a, b, n_iter): the loop accumulating acc. */
  method Integrate(f: real -> real, a: real, b: real, nIter: int) returns (r: Outcome<real>)
    ensures r == IntegrateResult(f, a, b, nIter)
  {
    if nIter == 0 {
      return Raised(ZeroDivisionError);
    }
    var acc := 0.0;
    var step := (b - a) / nIter as real;
    var i := 0;
    while i < nIter
      invariant nIter > 0 ==> 0 <= i <= nIter
      invariant nIter < 0 ==> i == 0
      invariant acc == LeftSum(f, a, step, i)
    {
      acc := acc + f(Sample(a, step, i)) * step;
      i := i + 1;
    }
    return Ok(acc);
  }

  /** A left sum over m + k samples is the sum over the first m followed by the sum over the
      next k, which start m steps further on. */
  lemma {:induction false} LeftSumSplit(f: real -> real, a: real, step: real, m: nat, k: nat)
    ensures LeftSum(f, a, step, m + k) == LeftSum(f, a, step, m) + LeftSum(f, Sample(a, step, m), step, k)
    decreases k
  {
    if k > 0 {
      LeftSumSplit(f, a, step, m, k - 1);
      SampleShift(a, step, m, k - 1);
    }
  }

  lemma {:induction false} LeftSumConstant(f: real -> real, c: real, a: real, step: real, n: nat)
    requires forall x :: f(x) == c
    ensures LeftSum(f, a, step, n) == n as real * c * step
    decreases n
  {
    if n > 0 {
      LeftSumConstant(f, c, a, step, n - 1);
    }
  }

  /** The rectangle rule is exact for a constant integrand. */
  lemma IntegrateConstant(f: real -> real, c: real, a: real, b: real, nIter: int)
    requires forall x :: f(x) == c
    requires nIter > 0
    ensures IntegrateResult(f, a, b, nIter) == Ok(c * (b - a))
  {
    var n := nIter as real;
    var step := (b - a) / n;
    LeftSumConstant(f, c, a, step, nIter);
    assert n * step == b - a;
    calc {
      n * c * step;
      c * (n * step);
      c * (b - a);
    }
    assert LeftSum(f, a, step, nIter) == c * (b - a);
  }

  lemma {:induction false} LeftSumAgree(f: real -> real, g: real -> real, a: real, step: real, n: nat)
    requires forall i :: 0 <= i < n ==> f(Sample(a, step, i)) == g(Sample(a, step, i))
    ensures LeftSum(f, a, step, n) == LeftSum(g, a, step, n)
    decreases n
  {
    if n > 0 {
      LeftSumAgree(f, g, a, step, n - 1);
    }
  }

  /** Only left endpoints are sampled: on a < b the result depends on f over [a, b) alone, so
      the value of f at b never matters. */
  lemma LeftRuleIgnoresRightEnd(f: real -> real, g: real -> real, a: real, b: real, nIter: int)
    requires a < b && nIter > 0
    requires forall x :: a <= x < b ==> f(x) == g(x)
    ensures IntegrateResult(f, a, b, nIter) == IntegrateResult(g, a, b, nIter)
  {
    var step := (b - a) / nIter as real;
    assert step > 0.0;
    forall i | 0 <= i < nIter ensures f(Sample(a, step, i)) == g(Sample(a, step, i)) {
      assert i as real * step < nIter as real * step == b - a;
    }
    LeftSumAgree(f, g, a, step, nIter);
  }

  /** The iterations each job gets: n_iter // n_jobs + n_iter % n_jobs. The whole remainder goes
      to every job, so all jobs together run n_iter + (n_jobs - 1) * (n_iter % n_jobs)
      iterations: never fewer than n_iter, and exactly n_iter only when n_jobs divides it. */
  function JobIterations(nIter: int, nJobs: int): (ni: int)
    requires nJobs > 0
    ensures nJobs * ni == nIter + (nJobs - 1) * (nIter % nJobs)
    ensures nJobs * ni >= nIter
    ensures nJobs * ni == nIter <==> nIter % nJobs == 0
    ensures nIter > 0 ==> ni > 0
  {
    var q, r := nIter / nJobs, nIter % nJobs;
    SpreadRemainder(nJobs, q, r);
    q + r
  }

  /** m jobs of q + r steps, against the m * q + r steps there are: the remainder r is run
      m - 1 times too often. */
  lemma SpreadRemainder(m: int, q: int, r: int)
    requires m > 0 && 0 <= r < m
    ensures m * (q + r) == (m * q + r) + (m - 1) * r
    ensures (m - 1) * r >= 0
    ensures (m - 1) * r == 0 <==> r == 0
    ensures m * q + r > 0 ==> q + r > 0
  {
    assert m * (q + r) == m * q + m * r;
    assert m * r == r + (m - 1) * r;
    if r > 0 {
      assert m - 1 > 0;
      assert (m - 1) * r > 0;
    }
    if q + r <= 0 {
      assert m * (q + r) <= 0;
    }
  }
}
