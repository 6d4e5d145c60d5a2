/** The CPU-bound workload of the benchmark (hw4/4.1_example.py): the iterative Fibonacci
    function, and the text of the benchmark report built from the three measured times. The
    times themselves (wall-clock differences, rendered by str()) are opaque strings. */
module Fibonacci {
  import opened Text

  /** The Fibonacci numbers: F(0) = 0, F(1) = 1, F(n + 2) = F(n) + F(n + 1). */
  function Fib(n: nat): nat {
    if n < 2 then n else Fib(n - 2) + Fib(n - 1)
  }

  /** fibonacci(n): a and b start at 0 and 1 and move one step along the sequence per
      iteration. range(n) is empty for n <= 0, so such an n gives 0. */
  method Fibonacci(n: int) returns (a: int)
    ensures a == Fib(if n < 0 then 0 else n)
  {
    var count := if n < 0 then 0 else n;
    var b := 1;
    a := 0;
    for i := 0 to count
      invariant a == Fib(i) && b == Fib(i + 1)
    {
      a, b := b, a + b;
    }
  }

  /** The three lines of the report: synchronous, threads, processes. */
  function Messages(execution: string, threads: string, processes: string): (ms: seq<string>)
    ensures |ms| == 3
  {
    ["Synchronous execution: \t" + execution + " seconds",
     "Threading time: \t" + threads + " seconds",
     "Multiprocessing time: \t" + processes + " seconds"]
  }

  /** A three-part join written out. */
  lemma JoinThree(ms: seq<string>)
    requires |ms| == 3
    ensures Join("\n", ms) == ms[0] + "\n" + (ms[1] + "\n" + ms[2])
  {
    var rest := ms[1..];
    assert rest[1..] == [ms[2]];
    assert Join("\n", rest[1..]) == ms[2];
    assert Join("\n", rest) == ms[1] + "\n" + ms[2];
  }

  /** The text write_benchmark_report puts in the file: the messages joined by newlines. */
  function BenchmarkReport(execution: string, threads: string, processes: string): string {
    Join("\n", Messages(execution, threads, processes))
  }

  /** When no time contains a newline, the report has exactly the three messages as its lines,
      in the order execution, threads, processes, and it does not end in a newline. */
  lemma ReportLines(execution: string, threads: string, processes: string)
    requires '\n' !in execution && '\n' !in threads && '\n' !in processes
    ensures var report := BenchmarkReport(execution, threads, processes);
      && Split(report, '\n') == Messages(execution, threads, processes)
      && report[|report| - 1] == 's'
  {
    var ms := Messages(execution, threads, processes);
    forall k | 0 <= k < |ms| ensures '\n' !in ms[k] {
      assert ms[k] == ms[0] || ms[k] == ms[1] || ms[k] == ms[2];
    }
    JoinThree(ms);
    SplitJoin(ms, '\n');
  }

  /** What the print loop writes: each message on a line of its own, which is the report
      followed by one newline. */
  function Printed(execution: string, threads: string, processes: string): string {
    var ms := Messages(execution, threads, processes);
    ms[0] + "\n" + ms[1] + "\n" + ms[2] + "\n"
  }

  lemma PrintedIsReport(execution: string, threads: string, processes: string)
    ensures Printed(execution, threads, processes) == BenchmarkReport(execution, threads, processes) + "\n"
  {
    var ms := Messages(execution, threads, processes);
    JoinThree(ms);
  }
}
