# python_advanced in Dafny

This project models the computational core of the python_advanced course repository and proves properties of the model:

- **hw1 command-line clones.**
  - `wc`: lines, words and characters per file, a "total" row, and padded columns.
  - `tail`: the last ten lines of each file, framed by headers when there are several files. Without files it echoes seventeen reads of standard input.
  - `nl`: every line numbered from 1 in a six-wide column. It reads a file, or standard input until `input()` raises `EOFError`.
- **hw3 `Matrix`.** Element-wise `+` and `*`, the product `@`, the dot-product helper, and `str()`.
- **hw4 integrator.**
  - `split_interval` and the left-endpoint rule `integrate`.
  - How `n_iter` is divided among `n_jobs` jobs and their results summed, in `integrate_parallel`, `integrate_by_threads` and `integrate_by_processes`.
  - The timing/logging decorator `time_thread_logging` and its twin for the process pool, `integrate_time_process_logging`.
- **hw4 benchmark.** The iterative `fibonacci` and the text of the benchmark report.

How Python is modelled:

- A Python exception is the `Raised` case of `Outcomes.Outcome`. It names the exception class: `ZeroDivisionError`, `ValueError`, `IndexError`, `AttributeError` or `EOFError`.
- Floats are mathematical reals.
- Files are their path and the lines they yield.
- Standard input is a `Console.Stdin` object that consumes its pending lines and counts its reads.
- A logger is a `TimedLogging.Logger` object: the list of messages passed to `info()`.
- Clock readings and `str()` of floats and callables are strings supplied by the caller.
- What a command prints is modelled as the text, or the lines, it writes.

Modules:

- `Outcomes` (outcomes.dfy)
- `Text` (text.dfy): Python's string helpers — `strip`, `split()`, `str`/`int`, `join`, `ljust`/`rjust`.
- `Console` (console.dfy)
- `Wc`, `Tail`, `Nl`
- `Matrices`
- `Integration`
- `TimedLogging`
- `Parallel`
- `Fibonacci`

## Model

| member | source | states |
|---|---|---|
| Wc.WcCalc | hw1/wc.py:23-30 | the three counters equal `Tally(lines)`: one line, its whitespace-separated words and its length, added per line in file order |
| Wc.TallyLinesChars | hw1/wc.py:26-28 | the line count is the number of lines and the character count is the length of the whole text |
| Wc.TallyWords | hw1/wc.py:27 | for the lines of a text stream, the per-line `len(line.split())` counts add up to the word count of the whole text |
| Wc.BlankLineNoWords | hw1/wc.py:27 | a line made of whitespace only adds no word |
| Wc.TallyAppend | hw1/wc.py:25-28 | counting two runs of lines one after the other equals counting each run and adding the triples |
| Wc.TotalBounds | hw1/wc.py:83 | no file's count exceeds the running total in any component |
| Wc.TotalOfFiles | hw1/wc.py:76-83 | the "total" row equals the counts of all the files' lines, one list after another |
| Wc.PrintLineAligned | hw1/wc.py:51-56 | when no count is wider than n, each count fills a column of exactly n characters, the columns are separated by single spaces, and the name follows at position 3n+3 |
| Wc.WcPrint | hw1/wc.py:49-57 | one printed line per row, in row order, each the row's ljust-formatted line |
| Wc.CountFiles | hw1/wc.py:78-88 | one row per file in argument order, holding that file's counts as text and its path; the total is the component-wise sum of all files' counts |
| Wc.WcFunc | hw1/wc.py:70-94 | the printed lines equal `Report(files)`: nothing for no file, the unpadded line for one file, and for several files a padded row per file followed by the "total" row |
| Wc.ReportAligned | hw1/wc.py:90-94 | with several files, report line k (a file row or the total row) has its counts in three columns whose width is the number of digits of the largest total, and then ends with that file's path or "total" |
| Tail.LastLines | hw1/tail.py:16-17 | `lines[-n:]` is a suffix of the lines; for n >= 1 it has min(n, len) lines, and for n == 0 it is the entire list |
| Tail.LastLinesIdempotent | hw1/tail.py:17 | taking the last n lines of the last n lines changes nothing |
| Tail.LastLinesInOrder | hw1/tail.py:17-20 | the k-th selected line is line len - min(n, len) + k of the file, so the order is kept |
| Tail.ReadLastNLines | hw1/tail.py:15-20 | the text written is the concatenation of the selected lines, unchanged (print with end="") |
| Tail.ReadLastNLinesFromStdin | hw1/tail.py:31-32 | exactly max(n, 0) reads; each read's line is written with a newline added, and the input advances by as many lines as were available |
| Tail.EchoExhausted | hw1/tail.py:31-32 | on exhausted input every read yields "" and only the newlines are written |
| Tail.EchoLines | hw1/tail.py:31-32 | while input lasts, each line is written as read and then followed by one extra newline |
| Tail.TailOfFiles | hw1/tail.py:46-52 | one file gives its last ten lines; several files give one block per file, in argument order |
| Tail.BlockShape | hw1/tail.py:50-52 | each block starts with the header `==> path <==` and a newline, then has at most ten of the file's lines (the last ones), then an empty line |
| Tail.TailFunc | hw1/tail.py:45-54 | with files, stdin is untouched; without files, exactly 17 reads of stdin are echoed, and the unread stdin advances by min(17, available) lines |
| Nl.NlFile | hw1/nl.py:14-18 | line i (from 0) of the file prints as `f"{i + 1:>6}  {line.strip()}"`, every line including blank ones, in order |
| Nl.NlStdin | hw1/nl.py:19-24 | every pending line is numbered in order, and the loop ends with the EOFError of the read after the last line; the reads are one more than the lines |
| Nl.NumberedLineLayout | hw1/nl.py:18 | a numbered line is the number right-aligned in a field of max(6, digits) characters, then two spaces, then the stripped line; stripping the field gives the number back |
| Nl.ModesAgree | hw1/nl.py:17-22 | file mode and stdin mode print the same lines for the same text, because strip() removes the newline that input() already dropped |
| Console.Stdin.ReadLine | hw1/tail.py:32 | the next pending line with its newline, or "" once the input is exhausted; one read is counted either way |
| Console.Stdin.Input | hw1/nl.py:22 | the next pending line without its newline, or EOFError once the input is exhausted |
| Matrices.Matrix.constructor | hw3/matrix.py:25-27 | rows is the number of rows and cols the length of the first row |
| Matrices.Matrix.Create | hw3/matrix.py:25-27 | construction raises IndexError exactly when the list is empty |
| Matrices.ElementWise | hw3/matrix.py:49-60 | ValueError exactly when rows or cols differ; otherwise a rectangular result whose entry (i, j) combines the operands' entries (i, j), or IndexError when a ragged row is too short |
| Matrices.ElementWiseRectangular | hw3/matrix.py:49-60 | equal-shaped rectangular matrices never raise, and + and * are commutative |
| Matrices.Matrix.Combine | hw3/matrix.py:53-58 | the nested loops build the matrix ElementWise describes, or raise what it raises |
| Matrices.Matrix.Add | hw3/matrix.py:49-60 | self + other agrees with ElementWise using addition |
| Matrices.Matrix.Mul | hw3/matrix.py:82-93 | self * other agrees with ElementWise using multiplication |
| Matrices.DotProduct | hw3/matrix.py:159-162 | IndexError exactly when an index the loop reads does not exist; otherwise the sum over k < len(m1[i]) of m1[i][k] * m2[k][j] |
| Matrices.DotProductExample | hw3/matrix.py:154-157 | row [1, 2] against column [5, 7] gives 19 |
| Matrices.Matrix.GetMatrixDotProductElem | hw3/matrix.py:159-162 | the accumulating loop returns DotProduct |
| Matrices.MatMulAsWritten | hw3/matrix.py:115-129 | ValueError exactly when self.cols != other.rows; otherwise self.rows x self.cols dot products |
| Matrices.Matrix.MatMul | hw3/matrix.py:115-129 | self @ other agrees with MatMulAsWritten |
| Matrices.MatMulSquare | hw3/matrix.py:115-129 | for square n x n operands, the product as written is the true matrix product |
| Matrices.MatMulAsWrittenRectangular | hw3/matrix.py:122-127 | for n x m and m x p operands, the written product succeeds exactly when p >= m, and then it holds the first m columns of the true product |
| Matrices.MatMulDropsColumns | hw3/matrix.py:125 | a 2 x 2 times 2 x 3 product comes out 2 x 2 as written, where the corrected product is 2 x 3 |
| Matrices.MatMulRaisesOnNarrow | hw3/matrix.py:125 | a 2 x 3 times 3 x 2 product raises IndexError as written, where the corrected product is [[22, 28], [49, 64]] |
| Matrices.MatMulIntended | hw3/matrix.py:115-129 | the corrected product, with other.cols columns: ValueError under the same condition |
| Matrices.MatMulIntendedRectangular | hw3/matrix.py:115-129 | the corrected product equals the true product for every conforming rectangular pair |
| Matrices.RenderRoundTrip | hw3/matrix.py:174 | str() loses nothing when no row is empty: splitting at newlines and tabs and parsing the integers gives the matrix back |
| Integration.SplitInterval | hw4/my_module.py:31-32 | ZeroDivisionError exactly when n == 0; [] for n < 0; otherwise n contiguous pieces of width (B - A) / n, from A to B |
| Integration.SplitIntervalExample | hw4/my_module.py:28-29 | [0, 10] in five pieces is [0, 2], [2, 4], [4, 6], [6, 8], [8, 10] |
| Integration.SplitCovers | hw4/4.2_example.py:6-8 | the pieces' widths add up to B - A |
| Integration.Integrate | hw4/my_module.py:215-220 | ZeroDivisionError when n_iter == 0; otherwise acc is the left sum of f(a + i * step) * step over i < n_iter (0 for negative n_iter) |
| Integration.LeftSumSplit | hw4/my_module.py:217-218 | a left sum of m + n steps is the sum of m steps and then n steps |
| Integration.IntegrateConstant | hw4/my_module.py:215-220 | a constant c integrates to exactly c * (b - a) |
| Integration.LeftRuleIgnoresRightEnd | hw4/my_module.py:217-218 | two integrands that agree on [a, b) give the same result, so the value at b is never sampled |
| Integration.JobIterations | hw4/my_module.py:252 | for n_jobs > 0, n_jobs jobs of n_iter // n_jobs + n_iter % n_jobs steps do n_iter + (n_jobs - 1) * (n_iter % n_jobs) steps in all: never fewer than n_iter, exactly n_iter if and only if n_jobs divides it, and at least one step per job when n_iter > 0 |
| TimedLogging.SectionsPresent | hw4/my_module.py:81-99 | a section appears in the record exactly when its log_info flag is set; start_end governs both clock lines |
| TimedLogging.SectionsOrdered | hw4/my_module.py:81-99 | the sections appear in the fixed order Beginning, params, result, Ending, Execution Time |
| TimedLogging.LogRecordEmpty | hw4/my_module.py:81-99 | the record is empty exactly when all four flags are off |
| TimedLogging.BuildRecord | hw4/my_module.py:75-99 | the successive `log +=` give exactly LogRecord, the enabled sections' lines in order |
| TimedLogging.ThreadParamsPositional | hw4/my_module.py:86-88 | for integrate's four positional arguments the decorator's params text is the hand-written `f, a, b, n_iter` text plus the trailing space of the empty kwargs part |
| TimedLogging.Logger.Info | hw4/my_module.py:101 | info() appends exactly one message |
| TimedLogging.TimedCall | hw4/my_module.py:74-103 | an exception from the call propagates with nothing logged; otherwise exactly one record is logged and the result returned unchanged, or AttributeError when the logger is None |
| TimedLogging.TimedCallIntended | hw4/my_module.py:74-103 | the corrected wrapper: always the call's own outcome, and a record only when a logger exists |
| TimedLogging.IntegrateTimeProcessLogging | hw4/my_module.py:163-189 | returns what integrate returns, after logging one record of the same shape with params `f, a, b, n_iter`; AttributeError when the logger is None |
| TimedLogging.IntegrateTimeProcessLoggingIntended | hw4/my_module.py:163-189 | the corrected hand-written wrapper: always integrate's own outcome, and the same record only when a logger exists and integrate returned |
| Parallel.AggregateOutcome | hw4/4.2_example.py:43-44 | the aggregate raises exactly when some job raised, and then it raises the earliest job's exception; otherwise it is Ok of the in-order sum |
| Parallel.BuildBounds | hw4/4.2_example.py:38-40 | a_list[i] and b_list[i] are the ends of the i-th interval, for max(n_jobs, 0) jobs |
| Parallel.IntegrateParallel | hw4/4.2_example.py:29-46 | equals ParallelResult: ZeroDivisionError for n_jobs == 0, ValueError from the pool's max_workers for n_jobs < 0, otherwise the in-order sum of integrate over each piece with n_iter // n_jobs + n_iter % n_jobs steps |
| Parallel.ParallelOneJob | hw4/4.2_example.py:29-46 | with one job the result is exactly integrate(f, a, b, n_iter) |
| Parallel.SumBlocks | hw4/4.2_example.py:43-44 | adding up k consecutive blocks of q steps gives the left sum over k * q steps |
| Parallel.ParallelSteps | hw4/4.2_example.py:29-46 | for n_jobs > 0 with a positive per-job budget, the parallel result equals one sequential integrate over [a, b] with n_jobs * (n_iter // n_jobs + n_iter % n_jobs) steps |
| Parallel.ParallelDivisible | hw4/4.2_example.py:29-46 | when n_jobs divides n_iter, the parallel result equals the sequential integrate(f, a, b, n_iter) |
| Parallel.ParallelRaises | hw4/4.2_example.py:31-44 | for n_jobs > 0 the result raises exactly when a job gets 0 steps, and then it raises ZeroDivisionError |
| Parallel.RunLoggedJob | hw4/my_module.py:264-265 | one job through the wrapper as written, or the corrected one when asked: integrate's outcome, passed through the logger check (which the corrected wrapper always passes); a record is logged only if integrate returned |
| Parallel.RunLoggedJobs | hw4/my_module.py:263-266 | the jobs run in order; their outcomes are LoggedJobs of the integrate outcomes, and the logger receives JobRecords, one record per returning job in job order |
| Parallel.RunNextJob | hw4/my_module.py:263-266 | one pass of the job loop: the outcome list and the log grow from the first i jobs' to the first i + 1 jobs' |
| Parallel.IntegrateByThreads | hw4/my_module.py:251-268 | returns LoggedResult and leaves LoggedRecords in the logger, with the decorator's params text |
| Parallel.IntegrateByProcesses | hw4/my_module.py:299-325 | returns LoggedResult and leaves LoggedRecords in the logger, with the hand-written params text |
| Parallel.LoggedWithLogger | hw4/my_module.py:263-266 | with a logger, the logging variants return what integrate_parallel returns |
| Parallel.IntegrateLoggedIntended | hw4/my_module.py:251-268 | integrate_by_threads or integrate_by_processes over the corrected wrappers: for every logger, None included, the result is ParallelResult, and a present logger receives LoggedRecords |
| Parallel.WithoutLoggerRaises | hw4/my_module.py:223 | with the default logger=None and a positive budget, every call raises AttributeError |
| Parallel.LoggedRecordsCount | hw4/my_module.py:101 | logger.info is called once per job: n_jobs records, or none when every job divides by zero |
| Fibonacci.Fibonacci | hw4/4.1_example.py:6-12 | returns F(n), the n-th Fibonacci number, and 0 for n <= 0 |
| Fibonacci.ReportLines | hw4/4.1_example.py:57-59 | when no time contains a newline, the report file splits at newlines into the three messages, in the order synchronous, threads, processes, and it does not end in a newline |
| Fibonacci.PrintedIsReport | hw4/4.1_example.py:70-77 | what the print loop writes is the report text followed by one newline |

## Left out

- Concurrency. The thread pools and process pools are modelled as a sequential, in-order map. `executor.map` returns results in submission order, so the sum in the model is the same. The interleaving of log records written by concurrent jobs is not captured: the model logs them in job order.
- Pickling of the logger for the process pool, and the list of one logger per job (hw4/my_module.py:305): every job shares one `Logger` object.
- Float rounding. All arithmetic is on reals, so `ParallelDivisible` is exact only in this model.
- Clock readings (`datetime.now`, `strftime`, `total_seconds`) and `str()` of floats and callables are opaque strings passed in by the caller.
- Logger construction and file handlers (hw4/my_module.py:328-387) are not part of this model. A logger is the list of its `info()` messages.
- The debug prints inside `integrate` of hw4/4.2_example.py:12-14 and 21-25 are I/O; the model keeps only the returned value.
- `click` option parsing, opening files and `print` are I/O. Files are their lines, and what is printed is the text produced.
- Text-mode newline translation and encodings: a line is the character sequence the file object yields.
- Matrices.Matrix.GetMatrixDotProductElem: takes non-negative indices `i`, `j`; Python's negative indexing of rows is not modelled.
- Matrix.write_to_file (hw3/matrix.py:176-179) only writes `str(self)` to a file, and `str(self)` is modelled as `Matrix.ToString` and `Render`.
- The timing drivers `run_execution`, `run_threads` and `run_processes` (hw4/4.1_example.py:15-54) only start threads or processes and measure wall-clock time. The benchmark scripts hw4/4.2_threads_benchmark.py and hw4/4.2_processes_benchmark.py only time and report calls. All of them are left out.
- hw2 table generation, the hw3 example scripts, and the three-process messaging of hw4 are not part of this model.
- Nl.NlStdin: the source loops forever and stops only through the uncaught EOFError. The model returns that exception instead of raising it.
- Parallel.IntegrateParallel: for a negative n_jobs, `n_iter // n_jobs` is computed and then discarded when the pool raises ValueError. The model does not compute it, and the same holds for Parallel.IntegrateByThreads and Parallel.IntegrateByProcesses.
- Fibonacci.Fibonacci: the unused loop variable is not modelled.
- Integration.Integrate: the integrand is a total `real -> real` function that never raises. In the source `f(a + i * step)` (hw4/my_module.py:218, hw4/4.2_example.py:19) may raise, as `math.log` does at 0 with ValueError; the model's only exception from integrate is ZeroDivisionError.
- Parallel.ParallelRaises: holds for integrands that never raise. With a raising f, a job with a positive budget can raise too, so "raises exactly when a job gets 0 steps" is not the source's promise for every f.
- Parallel.LoggedRecordsCount: holds for integrands that never raise. A job whose f raises logs no record, so with such an f the logger can receive fewer than n_jobs records without every job dividing by zero.

## Findings

| source | as written | input that shows it | evidently intended | confidence | as-written member | corrected member |
|---|---|---|---|---|---|---|
| hw3/matrix.py:125 | the inner loop of `__matmul__` runs `j` over `range(self.cols)` | `[[1, 2], [3, 4]] @ [[1, 0, 0], [0, 1, 0]]` gives a 2 x 2 result; `[[1, 2, 3], [4, 5, 6]] @ [[1, 2], [3, 4], [5, 6]]` raises IndexError | `j` over `range(other.cols)`, giving the self.rows x other.cols product | not executed | Matrices.MatMulDropsColumns | Matrices.MatMulIntendedRectangular |
| hw4/my_module.py:223 | `integrate_by_threads` and `integrate_by_processes` default to `logger=None`, and the wrappers call `logger.info(log)` unconditionally (hw4/my_module.py:101, 187) | `integrate_by_threads(f, 0, 1, 1, 10)` with no logger raises AttributeError after the job has computed its value | without a logger the result is returned and nothing is logged | not executed | Parallel.WithoutLoggerRaises | TimedLogging.TimedCallIntended, TimedLogging.IntegrateTimeProcessLoggingIntended, Parallel.IntegrateLoggedIntended |
