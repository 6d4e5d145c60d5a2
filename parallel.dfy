/** The work split and aggregation around integrate: integrate_parallel (hw4/4.2_example.py) and
    integrate_by_threads / integrate_by_processes (hw4/my_module.py). A pool's map is modelled as
    a sequential map that runs every job and keeps submission order. */
module Parallel {
  import opened Outcomes
  import opened Text
  import opened Integration
  import opened TimedLogging

  /** sum(xs): added from left to right, starting at 0. */
  function Sum(xs: seq<real>): real {
    if xs == [] then 0.0 else Sum(xs[..|xs| - 1]) + xs[|xs| - 1]
  }

  /** The position of the first job that raised, or |outs| when none did. */
  function FirstRaised<T>(outs: seq<Outcome<T>>): (k: nat)
    ensures k <= |outs|
    ensures forall j :: 0 <= j < k ==> outs[j].Ok?
    ensures k < |outs| ==> outs[k].Raised?
  {
    if outs == [] then 0 else if outs[0].Raised? then 0 else 1 + FirstRaised(outs[1..])
  }

  function Values(outs: seq<Outcome<real>>): seq<real>
    requires forall j :: 0 <= j < |outs| ==> outs[j].Ok?
  {
    seq(|outs|, j requires 0 <= j < |outs| => outs[j].value)
  }

  /** list(executor.map(...)) and then sum(): the results are collected in submission order, the
      first exception in that order is raised again, otherwise the values are added up. */
  function Aggregate(outs: seq<Outcome<real>>): Outcome<real> {
    var k := FirstRaised(outs);
    if k < |outs| then outs[k] else Ok(Sum(Values(outs)))
  }

  /** The aggregate raises exactly when some job raised, and then it raises what the earliest
      such job raised; otherwise it is the in-order sum of every job's value. */
  lemma AggregateOutcome(outs: seq<Outcome<real>>)
    ensures Aggregate(outs).Raised? <==> exists j :: 0 <= j < |outs| && outs[j].Raised?
    ensures Aggregate(outs).Raised? ==>
      exists j :: 0 <= j < |outs| && outs[j] == Aggregate(outs) && forall i :: 0 <= i < j ==> outs[i].Ok?
    ensures (forall j :: 0 <= j < |outs| ==> outs[j].Ok?) ==> Aggregate(outs) == Ok(Sum(Values(outs)))
  {
    var k := FirstRaised(outs);
    if k < |outs| {
      assert outs[k].Raised?;
    }
  }

  /** The i-th job: integrate over the i-th sub-interval with ni iterations. */
  function JobOutcomes(f: real -> real, ivs: seq<Interval>, ni: int): (outs: seq<Outcome<real>>)
    ensures |outs| == |ivs|
  {
    seq(|ivs|, i requires 0 <= i < |ivs| => IntegrateResult(f, ivs[i].lo, ivs[i].hi, ni))
  }

  /** integrate_parallel(f, a, b, n_jobs, n_iter): n_iter // n_jobs divides by zero when n_jobs is
      0, a pool with max_workers <= 0 raises ValueError, and otherwise every job integrates its
      sub-interval with the same JobIterations(n_iter, n_jobs) steps. */
  function ParallelResult(f: real -> real, a: real, b: real, nJobs: int, nIter: int): Outcome<real> {
    if nJobs == 0 then Raised(ZeroDivisionError)
    else if nJobs < 0 then Raised(ValueError)
    else Aggregate(JobOutcomes(f, SplitInterval(a, b, nJobs).value, JobIterations(nIter, nJobs)))
  }

  /** A job's outcome once it has gone through the logging wrapper: a value returned by integrate
      becomes AttributeError when there is no logger to call info() on. */
  function Logged(o: Outcome<real>, hasLogger: bool): Outcome<real> {
    if o.Ok? && !hasLogger then Raised(AttributeError) else o
  }

  /** The jobs' integrate outcomes as the futures of the logging variants report them, in
      submission order. */
  function LoggedJobs(outs: seq<Outcome<real>>, hasLogger: bool): (r: seq<Outcome<real>>)
    ensures |r| == |outs|
  {
    seq(|outs|, j requires 0 <= j < |outs| => Logged(outs[j], hasLogger))
  }

  /** integrate_by_threads and integrate_by_processes: as integrate_parallel, with every job
      passed through the logging wrapper. */
  function LoggedResult(f: real -> real, a: real, b: real, nJobs: int, nIter: int, hasLogger: bool): Outcome<real> {
    if nJobs == 0 then Raised(ZeroDivisionError)
    else if nJobs < 0 then Raised(ValueError)
    else Aggregate(LoggedJobs(JobOutcomes(f, SplitInterval(a, b, nJobs).value, JobIterations(nIter, nJobs)), hasLogger))
  }

  /** The params text of a job's record: the decorator's for the thread pool, the hand-written one
      for the process pool. */
  function JobParams(threads: bool, fname: string, showReal: real -> string, iv: Interval, ni: int): string {
    if threads then ThreadParams([fname, showReal(iv.lo), showReal(iv.hi), IntToString(ni)], [])
    else ProcessParams(fname, showReal(iv.lo), showReal(iv.hi), IntToString(ni))
  }

  /** The record a job that returned value leaves: the given log_info (the default one at every pool), the job's params. */
  function JobRecord(info: LogInfo, threads: bool, fname: string, showReal: real -> string, iv: Interval, ni: int, stamp: Stamp, value: real): string {
    LogRecord(info, stamp, JobParams(threads, fname, showReal, iv, ni), showReal(value))
  }

  /** What one job leaves in the log: its record if integrate returned, nothing if it raised. */
  function JobLog(o: Outcome<real>, iv: Interval, ni: int, info: LogInfo, threads: bool, fname: string,
                  showReal: real -> string, stamp: Stamp): seq<string> {
    if o.Raised? then [] else [JobRecord(info, threads, fname, showReal, iv, ni, stamp, o.value)]
  }

  /** The records left by jobs whose integrate outcomes are outs, in job order; job k runs on
      ivs[k] and its clock readings are clock(k). */
  function JobRecords(outs: seq<Outcome<real>>, ivs: seq<Interval>, ni: int, info: LogInfo, threads: bool, fname: string,
                      showReal: real -> string, clock: nat -> Stamp): seq<string>
    requires |outs| <= |ivs|
  {
    if outs == [] then []
    else JobRecords(outs[..|outs| - 1], ivs, ni, info, threads, fname, showReal, clock)
         + JobLog(outs[|outs| - 1], ivs[|outs| - 1], ni, info, threads, fname, showReal, clock(|outs| - 1))
  }

  /** The a_list / b_list loop: job i gets intervals[i][0] and intervals[i][1]. */
  method BuildBounds(intervals: seq<Interval>, nJobs: int) returns (aList: seq<real>, bList: seq<real>)
    requires nJobs <= |intervals|
    ensures |aList| == |bList| == Max(nJobs, 0)
    ensures forall i :: 0 <= i < |aList| ==> aList[i] == intervals[i].lo && bList[i] == intervals[i].hi
  {
    aList, bList := [], [];
    var i := 0;
    while i < nJobs
      invariant nJobs >= 0 ==> 0 <= i <= nJobs
      invariant nJobs < 0 ==> i == 0
      invariant |aList| == |bList| == i
      invariant forall j :: 0 <= j < i ==> aList[j] == intervals[j].lo && bList[j] == intervals[j].hi
    {
      aList := aList + [intervals[i].lo];
      bList := bList + [intervals[i].hi];
      i := i + 1;
    }
  }

  /** integrate_parallel of hw4/4.2_example.py, with the pool's map as an in-order loop. */
  method IntegrateParallel(f: real -> real, a: real, b: real, nJobs: int, nIter: int) returns (r: Outcome<real>)
    ensures r == ParallelResult(f, a, b, nJobs, nIter)
  {
    if nJobs == 0 {
      return Raised(ZeroDivisionError);
    }
    var intervals := SplitInterval(a, b, nJobs).value;
    var aList, bList := BuildBounds(intervals, nJobs);
    if nJobs < 0 {
      return Raised(ValueError);
    }
    var ni := JobIterations(nIter, nJobs);
    var outs: seq<Outcome<real>> := [];
    var i := 0;
    while i < nJobs
      invariant 0 <= i <= nJobs
      invariant |outs| == i
      invariant forall j :: 0 <= j < i ==> outs[j] == IntegrateResult(f, intervals[j].lo, intervals[j].hi, ni)
    {
      var o := Integrate(f, aList[i], bList[i], ni);
      outs := outs + [o];
      i := i + 1;
    }
    assert outs == JobOutcomes(f, intervals, ni);
    return Aggregate(outs);
  }

  /** The jobs of integrate_by_threads (threads) or integrate_by_processes (not threads), one per
      pair of bounds: each runs integrate through the logging wrapper with the default log_info,
      the wrapper as written or, when corrected, the one that tolerates a missing logger. */
  method RunLoggedJobs(f: real -> real, aList: seq<real>, bList: seq<real>, ni: int, info: LogInfo, logger: Logger?,
                       threads: bool, corrected: bool, fname: string, showReal: real -> string,
                       clock: nat -> Stamp) returns (outs: seq<Outcome<real>>)
    requires |aList| == |bList|
    modifies logger
    ensures |outs| == |aList|
    ensures outs == LoggedJobs(JobOutcomes(f, Bounds(aList, bList), ni), logger != null || corrected)
    ensures logger != null ==>
      logger.records == old(logger.records)
        + JobRecords(JobOutcomes(f, Bounds(aList, bList), ni), Bounds(aList, bList), ni, info, threads, fname, showReal, clock)
  {
    ghost var ivs := Bounds(aList, bList);
    ghost var res := JobOutcomes(f, ivs, ni);
    ghost var start := if logger != null then logger.records else [];
    outs := [];
    var i := 0;
    while i < |aList|
      invariant 0 <= i <= |aList|
      invariant outs == LoggedJobs(res[..i], logger != null || corrected)
      invariant logger != null ==>
        logger.records == start + JobRecords(res[..i], ivs, ni, info, threads, fname, showReal, clock)
    {
      outs := RunNextJob(f, aList, bList, ni, info, logger, threads, corrected, fname, showReal, clock, i, outs, start);
      i := i + 1;
    }
    assert res[..|aList|] == res;
  }

  /** One iteration of the job loop: job i runs, its outcome is appended, its records are logged. */
  method RunNextJob(f: real -> real, aList: seq<real>, bList: seq<real>, ni: int, info: LogInfo, logger: Logger?,
                    threads: bool, corrected: bool, fname: string, showReal: real -> string,
                    clock: nat -> Stamp, i: nat, outs: seq<Outcome<real>>, ghost start: seq<string>)
    returns (next: seq<Outcome<real>>)
    requires i < |aList| == |bList|
    requires outs == LoggedJobs(JobOutcomes(f, Bounds(aList, bList), ni)[..i], logger != null || corrected)
    requires logger != null ==>
      logger.records == start + JobRecords(JobOutcomes(f, Bounds(aList, bList), ni)[..i], Bounds(aList, bList), ni, info, threads, fname, showReal, clock)
    modifies logger
    ensures next == LoggedJobs(JobOutcomes(f, Bounds(aList, bList), ni)[..i + 1], logger != null || corrected)
    ensures logger != null ==>
      logger.records == start + JobRecords(JobOutcomes(f, Bounds(aList, bList), ni)[..i + 1], Bounds(aList, bList), ni, info, threads, fname, showReal, clock)
  {
    ghost var ivs := Bounds(aList, bList);
    ghost var res := JobOutcomes(f, ivs, ni);
    ghost var before := if logger != null then logger.records else [];
    assert ivs[i] == Interval(aList[i], bList[i]);
    var o := RunLoggedJob(f, aList[i], bList[i], ni, info, logger, threads, corrected, fname, showReal, clock(i), res[i]);
    LoggedStep(res, i, logger != null || corrected);
    if logger != null {
      RecordStep(start, before, logger.records, res, ivs, ni, info, i, threads, fname, showReal, clock);
    }
    next := outs + [o];
  }

  /** One job through the logging wrapper: integrate runs, then one record is logged if it returned. */
  method RunLoggedJob(f: real -> real, lo: real, hi: real, ni: int, info: LogInfo, logger: Logger?, threads: bool,
                      corrected: bool, fname: string, showReal: real -> string, stamp: Stamp,
                      ghost res: Outcome<real>) returns (o: Outcome<real>)
    requires res == IntegrateResult(f, lo, hi, ni)
    modifies logger
    ensures o == Logged(res, logger != null || corrected)
    ensures logger != null ==>
      logger.records == old(logger.records) + JobLog(res, Interval(lo, hi), ni, info, threads, fname, showReal, stamp)
  {
    if threads {
      assert IntegrateCall((f, lo, hi, ni)) == IntegrateResult(f, lo, hi, ni);
      if corrected {
        o := TimedCallIntended(logger, info, IntegrateCall, (f, lo, hi, ni),
                               [fname, showReal(lo), showReal(hi), IntToString(ni)], [], showReal, stamp);
      } else {
        o := TimedCall(logger, info, IntegrateCall, (f, lo, hi, ni),
                       [fname, showReal(lo), showReal(hi), IntToString(ni)], [], showReal, stamp);
      }
    } else if corrected {
      o := IntegrateTimeProcessLoggingIntended(f, lo, hi, ni, logger, info, fname, showReal, stamp);
    } else {
      o := IntegrateTimeProcessLogging(f, lo, hi, ni, logger, info, fname, showReal, stamp);
    }
  }

  /** One more job's future: its logged outcome is appended. */
  lemma LoggedStep(res: seq<Outcome<real>>, i: nat, hasLogger: bool)
    requires i < |res|
    ensures LoggedJobs(res[..i + 1], hasLogger) == LoggedJobs(res[..i], hasLogger) + [Logged(res[i], hasLogger)]
  {
    assert res[..i + 1][..i] == res[..i];
  }

  /** One more job: its records follow those of the jobs before it. */
  lemma JobRecordsStep(res: seq<Outcome<real>>, ivs: seq<Interval>, ni: int, info: LogInfo, i: nat,
                       threads: bool, fname: string, showReal: real -> string, clock: nat -> Stamp)
    requires i < |res| <= |ivs|
    ensures JobRecords(res[..i + 1], ivs, ni, info, threads, fname, showReal, clock)
         == JobRecords(res[..i], ivs, ni, info, threads, fname, showReal, clock)
            + JobLog(res[i], ivs[i], ni, info, threads, fname, showReal, clock(i))
  {
    assert res[..i + 1][..i] == res[..i];
  }

  /** The log after job i: what it held before the job, followed by the job's own records. */
  lemma RecordStep(start: seq<string>, before: seq<string>, after: seq<string>, res: seq<Outcome<real>>,
                   ivs: seq<Interval>, ni: int, info: LogInfo, i: nat, threads: bool, fname: string,
                   showReal: real -> string, clock: nat -> Stamp)
    requires i < |res| <= |ivs|
    requires before == start + JobRecords(res[..i], ivs, ni, info, threads, fname, showReal, clock)
    requires after == before + JobLog(res[i], ivs[i], ni, info, threads, fname, showReal, clock(i))
    ensures after == start + JobRecords(res[..i + 1], ivs, ni, info, threads, fname, showReal, clock)
  {
    JobRecordsStep(res, ivs, ni, info, i, threads, fname, showReal, clock);
    var written := JobRecords(res[..i], ivs, ni, info, threads, fname, showReal, clock);
    var log := JobLog(res[i], ivs[i], ni, info, threads, fname, showReal, clock(i));
    assert start + written + log == start + (written + log);
  }

  /** integrate(f, a, b, n_iter) as the value the decorator wraps. */
  function IntegrateCall(x: (real -> real, real, real, int)): Outcome<real> {
    IntegrateResult(x.0, x.1, x.2, x.3)
  }

  /** The bound lists zipped back into intervals. */
  function Bounds(aList: seq<real>, bList: seq<real>): (ivs: seq<Interval>)
    requires |aList| == |bList|
    ensures |ivs| == |aList|
  {
    seq(|aList|, i requires 0 <= i < |aList| => Interval(aList[i], bList[i]))
  }

  /** The records integrate_by_threads (threads) or integrate_by_processes leaves in its logger. */
  function LoggedRecords(f: real -> real, a: real, b: real, nJobs: int, nIter: int, threads: bool, fname: string,
                         showReal: real -> string, clock: nat -> Stamp): seq<string> {
    if nJobs <= 0 then []
    else
      var ivs, ni := SplitInterval(a, b, nJobs).value, JobIterations(nIter, nJobs);
      JobRecords(JobOutcomes(f, ivs, ni), ivs, ni, DefaultLogInfo, threads, fname, showReal, clock)
  }

  lemma BoundsOfSplit(intervals: seq<Interval>, aList: seq<real>, bList: seq<real>)
    requires |aList| == |bList| == |intervals|
    requires forall i :: 0 <= i < |aList| ==> aList[i] == intervals[i].lo && bList[i] == intervals[i].hi
    ensures Bounds(aList, bList) == intervals
  {
  }

  /** integrate_by_threads: the jobs of integrate_parallel, each through
      time_thread_logging(logger)(integrate); job i's clock readings are clock(i). */
  method IntegrateByThreads(f: real -> real, a: real, b: real, nJobs: int, nIter: int, logger: Logger?,
                            fname: string, showReal: real -> string, clock: nat -> Stamp) returns (r: Outcome<real>)
    modifies logger
    ensures r == LoggedResult(f, a, b, nJobs, nIter, logger != null)
    ensures logger != null ==>
      logger.records == old(logger.records) + LoggedRecords(f, a, b, nJobs, nIter, true, fname, showReal, clock)
  {
    if nJobs == 0 {
      return Raised(ZeroDivisionError);
    }
    var intervals := SplitInterval(a, b, nJobs).value;
    var aList, bList := BuildBounds(intervals, nJobs);
    if nJobs < 0 {
      return Raised(ValueError);
    }
    BoundsOfSplit(intervals, aList, bList);
    var ni := JobIterations(nIter, nJobs);
    var outs := RunLoggedJobs(f, aList, bList, ni, DefaultLogInfo, logger, true, false, fname, showReal, clock);
    return Aggregate(outs);
  }

  /** integrate_by_processes: the same jobs, each through integrate_time_process_logging. */
  method IntegrateByProcesses(f: real -> real, a: real, b: real, nJobs: int, nIter: int, logger: Logger?,
                              fname: string, showReal: real -> string, clock: nat -> Stamp) returns (r: Outcome<real>)
    modifies logger
    ensures r == LoggedResult(f, a, b, nJobs, nIter, logger != null)
    ensures logger != null ==>
      logger.records == old(logger.records) + LoggedRecords(f, a, b, nJobs, nIter, false, fname, showReal, clock)
  {
    if nJobs == 0 {
      return Raised(ZeroDivisionError);
    }
    var intervals := SplitInterval(a, b, nJobs).value;
    var aList, bList := BuildBounds(intervals, nJobs);
    if nJobs < 0 {
      return Raised(ValueError);
    }
    BoundsOfSplit(intervals, aList, bList);
    var ni := JobIterations(nIter, nJobs);
    var outs := RunLoggedJobs(f, aList, bList, ni, DefaultLogInfo, logger, false, false, fname, showReal, clock);
    return Aggregate(outs);
  }

  /** integrate_by_threads (threads) or integrate_by_processes (not threads) with the corrected
      wrappers: with or without a logger the result is that of integrate_parallel, and a given
      logger receives the same records as with the wrappers as written. */
  method IntegrateLoggedIntended(f: real -> real, a: real, b: real, nJobs: int, nIter: int, logger: Logger?,
                                 threads: bool, fname: string, showReal: real -> string, clock: nat -> Stamp)
    returns (r: Outcome<real>)
    modifies logger
    ensures r == ParallelResult(f, a, b, nJobs, nIter)
    ensures logger != null ==>
      logger.records == old(logger.records) + LoggedRecords(f, a, b, nJobs, nIter, threads, fname, showReal, clock)
  {
    if nJobs == 0 {
      return Raised(ZeroDivisionError);
    }
    var intervals := SplitInterval(a, b, nJobs).value;
    var aList, bList := BuildBounds(intervals, nJobs);
    if nJobs < 0 {
      return Raised(ValueError);
    }
    BoundsOfSplit(intervals, aList, bList);
    var ni := JobIterations(nIter, nJobs);
    var outs := RunLoggedJobs(f, aList, bList, ni, DefaultLogInfo, logger, threads, true, fname, showReal, clock);
    LoggedWithLogger(f, a, b, nJobs, nIter);
    return Aggregate(outs);
  }

  // ---------------------------------------------------------------------------------------------
  // What the split computes
  // ---------------------------------------------------------------------------------------------

  /** With one job the split changes nothing: the job covers [a, b] with all n_iter steps. */
  lemma ParallelOneJob(f: real -> real, a: real, b: real, nIter: int)
    ensures ParallelResult(f, a, b, 1, nIter) == IntegrateResult(f, a, b, nIter)
  {
    var ivs := SplitInterval(a, b, 1).value;
    assert ivs[0].lo == a && ivs[0].hi == b;
    var outs := JobOutcomes(f, ivs, JobIterations(nIter, 1));
    assert outs == [IntegrateResult(f, a, b, nIter)];
    if outs[0].Ok? {
      assert FirstRaised(outs) == 1;
      var vs := Values(outs);
      assert vs == [outs[0].value] && vs[..0] == [];
      assert Sum(vs) == outs[0].value;
    }
  }

  /** d / m / q == d / (m * q), and a piece of width d / m is q steps of width d / (m * q). */
  lemma StepScale(d: real, m: int, q: int)
    requires m > 0 && q > 0
    ensures d / m as real == q as real * (d / (m * q) as real)
    ensures (d / m as real) / q as real == d / (m * q) as real
  {
    var s := d / (m * q) as real;
    assert (m * q) as real == m as real * q as real;
    assert m as real * (q as real * s) == d;
  }

  lemma BlockStart(a: real, s: real, q: int, j: int)
    ensures Sample(a, q as real * s, j) == Sample(a, s, j * q)
  {
    assert (j * q) as real == j as real * q as real;
  }

  /** The left sums of k consecutive blocks of q steps each. */
  function Blocks(f: real -> real, a: real, s: real, q: nat, k: nat): (r: seq<real>)
    ensures |r| == k
  {
    seq(k, j requires 0 <= j < k => LeftSum(f, Sample(a, s, j * q), s, q))
  }

  lemma BlocksSnoc(f: real -> real, a: real, s: real, q: nat, k: nat)
    requires k > 0
    ensures Sum(Blocks(f, a, s, q, k)) == Sum(Blocks(f, a, s, q, k - 1)) + LeftSum(f, Sample(a, s, (k - 1) * q), s, q)
  {
    var bs := Blocks(f, a, s, q, k);
    assert bs[..k - 1] == Blocks(f, a, s, q, k - 1);
  }

  /** Adding up k blocks of q steps gives the left sum over k * q steps. */
  lemma {:induction false} SumBlocks(f: real -> real, a: real, s: real, q: nat, k: nat)
    ensures Sum(Blocks(f, a, s, q, k)) == LeftSum(f, a, s, k * q)
    decreases k
  {
    if k > 0 {
      var n: nat := (k - 1) * q;
      assert n + q == k * q;
      BlocksSnoc(f, a, s, q, k);
      SumBlocks(f, a, s, q, k - 1);
      LeftSumSplit(f, a, s, n, q);
    }
  }

  /** Job j of a split into m jobs of q steps integrates the j-th block of q steps of the
      undivided sum with step (b - a) / (m * q). */
  lemma JobIsBlock(f: real -> real, a: real, b: real, m: int, q: int, j: int)
    requires m > 0 && q > 0 && 0 <= j < m
    ensures var iv := SplitInterval(a, b, m).value[j];
      IntegrateResult(f, iv.lo, iv.hi, q) == Ok(LeftSum(f, Sample(a, (b - a) / (m * q) as real, j * q), (b - a) / (m * q) as real, q))
  {
    var w := (b - a) / m as real;
    var s := (b - a) / (m * q) as real;
    var iv := SplitInterval(a, b, m).value[j];
    assert iv == Interval(Sample(a, w, j), Sample(a, w, j + 1));
    assert iv.hi - iv.lo == w;
    StepScale(b - a, m, q);
    assert w == q as real * s;
    assert (iv.hi - iv.lo) / q as real == s;
    BlockStart(a, s, q, j);
    assert iv.lo == Sample(a, s, j * q);
    assert IntegrateResult(f, iv.lo, iv.hi, q) == Ok(LeftSum(f, iv.lo, (iv.hi - iv.lo) / q as real, q));
  }

  /** Every job runs q = JobIterations(n_iter, n_jobs) steps over its piece, so the in-order sum
      of the jobs is the undivided left sum over n_jobs * q steps, which is more than n_iter
      whenever n_jobs does not divide n_iter. */
  lemma ParallelSteps(f: real -> real, a: real, b: real, nJobs: int, nIter: int)
    requires nJobs > 0 && JobIterations(nIter, nJobs) > 0
    ensures ParallelResult(f, a, b, nJobs, nIter) == IntegrateResult(f, a, b, nJobs * JobIterations(nIter, nJobs))
  {
    var q := JobIterations(nIter, nJobs);
    var s := (b - a) / (nJobs * q) as real;
    var outs := JobOutcomes(f, SplitInterval(a, b, nJobs).value, q);
    var bs := Blocks(f, a, s, q, nJobs);
    forall j | 0 <= j < nJobs ensures outs[j] == Ok(bs[j]) {
      JobIsBlock(f, a, b, nJobs, q, j);
    }
    var k := FirstRaised(outs);
    assert k == nJobs;
    assert Values(outs) == bs;
    SumBlocks(f, a, s, q, nJobs);
    ProductPositive(nJobs, q);
    assert Sum(bs) == LeftSum(f, a, s, nJobs * q);
  }

  lemma ProductPositive(m: int, q: int)
    requires m > 0 && q > 0
    ensures m * q > 0
  {
  }

  /** When n_jobs divides n_iter the split is exact: the in-order sum of the jobs is the
      undivided left sum over n_iter steps. */
  lemma ParallelDivisible(f: real -> real, a: real, b: real, nJobs: int, nIter: int)
    requires nJobs > 0 && nIter > 0 && nIter % nJobs == 0
    ensures ParallelResult(f, a, b, nJobs, nIter) == IntegrateResult(f, a, b, nIter)
  {
    ParallelSteps(f, a, b, nJobs, nIter);
  }

  /** Each job runs JobIterations steps, so a job raises exactly when that count is 0, and then
      every job raises ZeroDivisionError, the first of them included. */
  lemma ParallelRaises(f: real -> real, a: real, b: real, nJobs: int, nIter: int)
    requires nJobs > 0
    ensures ParallelResult(f, a, b, nJobs, nIter).Raised? <==> JobIterations(nIter, nJobs) == 0
    ensures JobIterations(nIter, nJobs) == 0 ==> ParallelResult(f, a, b, nJobs, nIter) == Raised(ZeroDivisionError)
  {
    var ni := JobIterations(nIter, nJobs);
    var outs := JobOutcomes(f, SplitInterval(a, b, nJobs).value, ni);
    if ni == 0 {
      assert outs[0] == Raised(ZeroDivisionError);
      assert FirstRaised(outs) == 0;
    } else {
      assert forall j :: 0 <= j < nJobs ==> outs[j].Ok?;
      assert FirstRaised(outs) == nJobs;
    }
  }

  /** Given a logger, the logging variants return what integrate_parallel returns. */
  lemma LoggedWithLogger(f: real -> real, a: real, b: real, nJobs: int, nIter: int)
    ensures LoggedResult(f, a, b, nJobs, nIter, true) == ParallelResult(f, a, b, nJobs, nIter)
  {
    if nJobs > 0 {
      var outs := JobOutcomes(f, SplitInterval(a, b, nJobs).value, JobIterations(nIter, nJobs));
      assert LoggedJobs(outs, true) == outs;
    }
  }

  /** With the default logger=None every call with a positive budget fails: integrate returns,
      and the wrapper then calls info() on None. */
  lemma WithoutLoggerRaises(f: real -> real, a: real, b: real, nJobs: int, nIter: int)
    requires nJobs > 0 && nIter > 0
    ensures LoggedResult(f, a, b, nJobs, nIter, false) == Raised(AttributeError)
  {
    var ivs := SplitInterval(a, b, nJobs).value;
    var ni := JobIterations(nIter, nJobs);
    var outs := LoggedJobs(JobOutcomes(f, ivs, ni), false);
    assert JobOutcomes(f, ivs, ni)[0].Ok?;
    assert outs[0] == Raised(AttributeError);
    assert FirstRaised(outs) == 0;
  }

  /** A record for every job that returned and none for a job that raised. */
  lemma {:induction false} JobRecordsCount(outs: seq<Outcome<real>>, ivs: seq<Interval>, ni: int, info: LogInfo, threads: bool,
                                          fname: string, showReal: real -> string, clock: nat -> Stamp)
    requires |outs| <= |ivs|
    ensures (forall j :: 0 <= j < |outs| ==> outs[j].Ok?) ==>
      |JobRecords(outs, ivs, ni, info, threads, fname, showReal, clock)| == |outs|
    ensures (forall j :: 0 <= j < |outs| ==> outs[j].Raised?) ==>
      |JobRecords(outs, ivs, ni, info, threads, fname, showReal, clock)| == 0
    decreases |outs|
  {
    if outs != [] {
      var init := outs[..|outs| - 1];
      assert forall j :: 0 <= j < |init| ==> init[j] == outs[j];
      JobRecordsCount(init, ivs, ni, info, threads, fname, showReal, clock);
    }
  }

  /** logger.info is called once per job: n_jobs records, or none when every job divided by zero. */
  lemma LoggedRecordsCount(f: real -> real, a: real, b: real, nJobs: int, nIter: int, threads: bool,
                           fname: string, showReal: real -> string, clock: nat -> Stamp)
    requires nJobs > 0
    ensures |LoggedRecords(f, a, b, nJobs, nIter, threads, fname, showReal, clock)|
         == if JobIterations(nIter, nJobs) == 0 then 0 else nJobs
  {
    var ivs, ni := SplitInterval(a, b, nJobs).value, JobIterations(nIter, nJobs);
    var outs := JobOutcomes(f, ivs, ni);
    JobRecordsCount(outs, ivs, ni, DefaultLogInfo, threads, fname, showReal, clock);
    if ni == 0 {
      assert forall j :: 0 <= j < |outs| ==> outs[j].Raised?;
    } else {
      assert forall j :: 0 <= j < |outs| ==> outs[j].Ok?;
    }
  }

}
