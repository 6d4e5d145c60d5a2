/** The per-call log record of the timing decorator time_thread_logging (hw4/my_module.py) and of
    its hand-written twin for the process pool, integrate_time_process_logging. Clock readings and
    Python str() renderings are opaque strings handed in by the caller; the logger is reduced to
    the list of messages its info() receives. */
module TimedLogging {
  import opened Outcomes
  import opened Text
  import Integration

  /** The log_info dictionary: which sections go into the record. */
  datatype LogInfo = LogInfo(startEnd: bool, funcParams: bool, result: bool, executeTime: bool)

  /** The default log_info: every section on. */
  const DefaultLogInfo := LogInfo(true, true, true, true)

  /** One call's clock readings, already rendered: strftime of the start and end times and the
      elapsed seconds. */
  datatype Stamp = Stamp(start: string, end: string, elapsed: string)

  datatype Section = Beginning | Params | ResultLine | Ending | Duration

  /** Where a section stands in the fixed order of a record. */
  function Rank(s: Section): nat {
    match s
    case Beginning => 0
    case Params => 1
    case ResultLine => 2
    case Ending => 3
    case Duration => 4
  }

  /** The flag that switches a section on; start_end governs both clock lines. */
  predicate Enabled(info: LogInfo, s: Section) {
    match s
    case Beginning => info.startEnd
    case Params => info.funcParams
    case ResultLine => info.result
    case Ending => info.startEnd
    case Duration => info.executeTime
  }

  function Opt(on: bool, s: Section): seq<Section> {
    if on then [s] else []
  }

  /** The sections of a record, in the order the if-blocks append them. */
  function Sections(info: LogInfo): seq<Section> {
    Opt(info.startEnd, Beginning) + Opt(info.funcParams, Params) + Opt(info.result, ResultLine)
    + Opt(info.startEnd, Ending) + Opt(info.executeTime, Duration)
  }

  /** A section is in the record exactly when its flag is set. */
  lemma SectionsPresent(info: LogInfo, s: Section)
    ensures s in Sections(info) <==> Enabled(info, s)
  {
  }

  /** The sections come in the fixed order Beginning, Params, ResultLine, Ending, Duration. */
  lemma SectionsOrdered(info: LogInfo)
    ensures forall i, j :: 0 <= i < j < |Sections(info)| ==> Rank(Sections(info)[i]) < Rank(Sections(info)[j])
  {
  }

  /** The text of one section. The params line embeds the result as well. */
  function Render(s: Section, stamp: Stamp, params: string, result: string): string {
    match s
    case Beginning => "Beginning Time = " + stamp.start + "\n"
    case Params => "params: " + params + " result:" + result + "\n"
    case ResultLine => "result:" + result + "\n"
    case Ending => "Ending Time = " + stamp.end + "\n"
    case Duration => "Execution Time = " + stamp.elapsed + " sec\n"
  }

  function RenderAll(ss: seq<Section>, stamp: Stamp, params: string, result: string): string {
    if ss == [] then ""
    else RenderAll(ss[..|ss| - 1], stamp, params, result) + Render(ss[|ss| - 1], stamp, params, result)
  }

  /** The record handed to logger.info: the enabled sections' texts one after the other. */
  function LogRecord(info: LogInfo, stamp: Stamp, params: string, result: string): string {
    RenderAll(Sections(info), stamp, params, result)
  }

  /** Every section is a non-empty line ending in a newline. */
  lemma RenderIsLine(s: Section, stamp: Stamp, params: string, result: string)
    ensures var t := Render(s, stamp, params, result); |t| > 0 && t[|t| - 1] == '\n'
  {
  }

  lemma {:induction false} RenderAllEmpty(ss: seq<Section>, stamp: Stamp, params: string, result: string)
    ensures RenderAll(ss, stamp, params, result) == "" <==> ss == []
  {
    if ss != [] {
      RenderIsLine(ss[|ss| - 1], stamp, params, result);
    }
  }

  /** The record is empty exactly when all four flags are off. */
  lemma LogRecordEmpty(info: LogInfo, stamp: Stamp, params: string, result: string)
    ensures LogRecord(info, stamp, params, result) == ""
        <==> !info.startEnd && !info.funcParams && !info.result && !info.executeTime
  {
    RenderAllEmpty(Sections(info), stamp, params, result);
  }

  lemma RenderAllOpt(done: seq<Section>, on: bool, s: Section, stamp: Stamp, params: string, result: string)
    ensures RenderAll(done + Opt(on, s), stamp, params, result)
         == RenderAll(done, stamp, params, result) + if on then Render(s, stamp, params, result) else ""
  {
    if on {
      assert (done + [s])[..|done|] == done;
    } else {
      assert done + [] == done;
    }
  }

  /** The successive log += of the wrapper, for already rendered params and result. */
  method BuildRecord(info: LogInfo, stamp: Stamp, params: string, result: string) returns (log: string)
    ensures log == LogRecord(info, stamp, params, result)
  {
    log := "";
    if info.startEnd {
      log := log + Render(Beginning, stamp, params, result);
    }
    ghost var done := Opt(info.startEnd, Beginning);
    assert log == RenderAll(done, stamp, params, result);
    RenderAllOpt(done, info.funcParams, Params, stamp, params, result);
    if info.funcParams {
      log := log + Render(Params, stamp, params, result);
    }
    done := done + Opt(info.funcParams, Params);
    assert log == RenderAll(done, stamp, params, result);
    RenderAllOpt(done, info.result, ResultLine, stamp, params, result);
    if info.result {
      log := log + Render(ResultLine, stamp, params, result);
    }
    done := done + Opt(info.result, ResultLine);
    assert log == RenderAll(done, stamp, params, result);
    RenderAllOpt(done, info.startEnd, Ending, stamp, params, result);
    if info.startEnd {
      log := log + Render(Ending, stamp, params, result);
    }
    done := done + Opt(info.startEnd, Ending);
    assert log == RenderAll(done, stamp, params, result);
    RenderAllOpt(done, info.executeTime, Duration, stamp, params, result);
    if info.executeTime {
      log := log + Render(Duration, stamp, params, result);
    }
    done := done + Opt(info.executeTime, Duration);
  }

  /** The params text of the decorator: ", ".join(map(str, args)), a space, then the keyword
      arguments as k=v joined by ", ". */
  function ThreadParams(argStrs: seq<string>, kwargs: seq<(string, string)>): string {
    Join(", ", argStrs) + " " + Join(", ", seq(|kwargs|, i requires 0 <= i < |kwargs| => kwargs[i].0 + "=" + kwargs[i].1))
  }

  /** The params text of integrate_time_process_logging: f, a, b, n_iter. */
  function ProcessParams(f: string, a: string, b: string, n: string): string {
    f + ", " + a + ", " + b + ", " + n
  }

  /** For the four positional arguments of integrate and no keyword arguments the two renderings
      differ only by the trailing space of the empty keyword part. */
  lemma ThreadParamsPositional(f: string, a: string, b: string, n: string)
    ensures ThreadParams([f, a, b, n], []) == ProcessParams(f, a, b, n) + " "
  {
    assert [f, a, b, n][1..] == [a, b, n];
    assert [a, b, n][1..] == [b, n];
    assert [b, n][1..] == [n];
    assert Join(", ", [b, n]) == b + ", " + n;
    assert Join(", ", [a, b, n]) == a + ", " + (b + ", " + n);
    assert Join(", ", [f, a, b, n]) == f + ", " + (a + ", " + (b + ", " + n));
    assert Join(", ", []) == "";
  }

  /** The logging.Logger, reduced to the messages it has been handed through info(). */
  class Logger {
    var records: seq<string>

    constructor ()
      ensures records == []
    {
      records := [];
    }

    method Info(msg: string)
      modifies this
      ensures records == old(records) + [msg]
    {
      records := records + [msg];
    }
  }

  /** inner(*args, **kwargs) of time_thread_logging(logger, info)(func): the wrapped call runs
      first; an exception from it propagates with nothing logged. Otherwise one record goes to
      logger.info, which raises AttributeError when the logger is None, and the result of the
      call is returned unchanged. */
  method TimedCall<X, R>(logger: Logger?, info: LogInfo, func: X -> Outcome<R>, x: X,
                         argStrs: seq<string>, kwargs: seq<(string, string)>, show: R -> string,
                         stamp: Stamp) returns (r: Outcome<R>)
    modifies logger
    ensures func(x).Raised? ==> r == func(x)
    ensures func(x).Ok? ==> r == if logger == null then Raised(AttributeError) else func(x)
    ensures logger != null ==>
      logger.records == old(logger.records) +
        if func(x).Ok? then [LogRecord(info, stamp, ThreadParams(argStrs, kwargs), show(func(x).value))] else []
  {
    var result := func(x);
    if result.Raised? {
      return result;
    }
    var log := BuildRecord(info, stamp, ThreadParams(argStrs, kwargs), show(result.value));
    if logger == null {
      return Raised(AttributeError);
    }
    logger.Info(log);
    return result;
  }

  /** The decorator as evidently intended when no logger is given: the call's own outcome is
      returned unchanged, and a record is written only when there is a logger to write it to. */
  method TimedCallIntended<X, R>(logger: Logger?, info: LogInfo, func: X -> Outcome<R>, x: X,
                                 argStrs: seq<string>, kwargs: seq<(string, string)>, show: R -> string,
                                 stamp: Stamp) returns (r: Outcome<R>)
    modifies logger
    ensures r == func(x)
    ensures logger != null ==>
      logger.records == old(logger.records) +
        if func(x).Ok? then [LogRecord(info, stamp, ThreadParams(argStrs, kwargs), show(func(x).value))] else []
  {
    var result := func(x);
    if result.Raised? {
      return result;
    }
    var log := BuildRecord(info, stamp, ThreadParams(argStrs, kwargs), show(result.value));
    if logger != null {
      logger.Info(log);
    }
    return result;
  }

  /** The record integrate_time_process_logging writes for a call that returned acc. */
  function ProcessRecord(info: LogInfo, stamp: Stamp, fname: string, showReal: real -> string,
                         a: real, b: real, nIter: int, acc: real): string {
    LogRecord(info, stamp, ProcessParams(fname, showReal(a), showReal(b), IntToString(nIter)), showReal(acc))
  }

  /** integrate_time_process_logging: returns exactly integrate(f, a, b, n_iter), after logging
      one record of the same shape as the decorator's. */
  method IntegrateTimeProcessLogging(f: real -> real, a: real, b: real, nIter: int, logger: Logger?,
                                     info: LogInfo, fname: string, showReal: real -> string,
                                     stamp: Stamp) returns (r: Outcome<real>)
    modifies logger
    ensures var res := Integration.IntegrateResult(f, a, b, nIter);
      r == if res.Ok? && logger == null then Raised(AttributeError) else res
    ensures var res := Integration.IntegrateResult(f, a, b, nIter);
      logger != null ==>
        logger.records == old(logger.records) +
          if res.Ok? then [ProcessRecord(info, stamp, fname, showReal, a, b, nIter, res.value)] else []
  {
    var result := Integration.Integrate(f, a, b, nIter);
    if result.Raised? {
      return result;
    }
    var log := BuildRecord(info, stamp, ProcessParams(fname, showReal(a), showReal(b), IntToString(nIter)),
                           showReal(result.value));
    if logger == null {
      return Raised(AttributeError);
    }
    logger.Info(log);
    return result;
  }

  /** integrate_time_process_logging as evidently intended when no logger is given: integrate's
      own outcome is returned, and the record is written only when there is a logger. */
  method IntegrateTimeProcessLoggingIntended(f: real -> real, a: real, b: real, nIter: int, logger: Logger?,
                                             info: LogInfo, fname: string, showReal: real -> string,
                                             stamp: Stamp) returns (r: Outcome<real>)
    modifies logger
    ensures r == Integration.IntegrateResult(f, a, b, nIter)
    ensures var res := Integration.IntegrateResult(f, a, b, nIter);
      logger != null ==>
        logger.records == old(logger.records) +
          if res.Ok? then [ProcessRecord(info, stamp, fname, showReal, a, b, nIter, res.value)] else []
  {
    var result := Integration.Integrate(f, a, b, nIter);
    if result.Raised? {
      return result;
    }
    var log := BuildRecord(info, stamp, ProcessParams(fname, showReal(a), showReal(b), IntToString(nIter)),
                           showReal(result.value));
    if logger != null {
      logger.Info(log);
    }
    return result;
  }
}
