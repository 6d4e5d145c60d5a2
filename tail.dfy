/** The tail clone (hw1/tail.py): the last lines of each file, framed by a header when there are
    several files, or a fixed number of lines echoed from standard input. What is printed is
    modelled as the text it writes. */
module Tail {
  import opened Text
  import opened Console

  /** How many lines file mode prints. */
  const FileLineCount := 10

  /** How many readline() calls stdin mode makes. */
  const StdinLineCount := 17

  /** Where a slice starting at `start` begins in a list of length len: a negative start counts
      from the end and is cut off at 0, a start past the end is cut off at len. */
  function SliceStart(start: int, len: nat): (s: nat)
    ensures s <= len
  {
    if start < 0 then (if start + len < 0 then 0 else start + len) else Min(start, len)
  }

  /** lines[-n:]. For n >= 1 this is the last min(n, len(lines)) lines in their order; since -0 is
      0, n == 0 selects every line. */
  function LastLines(lines: seq<string>, n: int): (r: seq<string>)
    ensures |r| <= |lines| && r == lines[|lines| - |r|..]
    ensures n >= 1 ==> |r| == Min(n, |lines|)
    ensures n == 0 ==> r == lines
  {
    lines[SliceStart(-n, |lines|)..]
  }

  /** Taking the last n lines twice takes nothing more. */
  lemma LastLinesIdempotent(lines: seq<string>, n: int)
    requires n >= 1
    ensures LastLines(LastLines(lines, n), n) == LastLines(lines, n)
  {
    var r := LastLines(lines, n);
    assert LastLines(r, n) == r[|r| - Min(n, |r|)..];
  }

  /** The selected lines are the file's own lines from position len - |r| on, in order. */
  lemma LastLinesInOrder(lines: seq<string>, n: int)
    requires n >= 1
    ensures var r := LastLines(lines, n);
      forall k :: 0 <= k < |r| ==> r[k] == lines[|lines| - Min(n, |lines|) + k]
  {
  }

  /** read_last_n_lines: the selected lines printed with end="", so written as they are. */
  method ReadLastNLines(lines: seq<string>, n: int) returns (out: string)
    ensures out == Concat(LastLines(lines, n))
  {
    var last := lines[SliceStart(-n, |lines|)..];
    out := "";
    var i := 0;
    while i < |last|
      invariant 0 <= i <= |last|
      invariant out == Concat(last[..i])
    {
      ConcatAppend(last[..i], last[i]);
      assert last[..i + 1] == last[..i] + [last[i]];
      out := out + last[i];
      i := i + 1;
    }
    assert last[..|last|] == last;
  }

  /** What the i-th readline() returns on input lines: the line, or "" past the end. */
  function LineAt(input: seq<string>, i: nat): string {
    if i < |input| then input[i] else ""
  }

  /** What read_last_n_lines_from_stdin(n) writes: n readline() results, each followed by the
      newline print adds. */
  function Echo(input: seq<string>, n: nat): string {
    if n == 0 then "" else Echo(input, n - 1) + LineAt(input, n - 1) + "\n"
  }

  /** read_last_n_lines_from_stdin: exactly n reads, each echoed with a newline. */
  method ReadLastNLinesFromStdin(stdin: Stdin, n: int) returns (out: string)
    modifies stdin
    ensures out == Echo(old(stdin.pending), if n < 0 then 0 else n)
    ensures stdin.readCount == old(stdin.readCount) + (if n < 0 then 0 else n)
    ensures stdin.pending == old(stdin.pending)[Min(if n < 0 then 0 else n, |old(stdin.pending)|)..]
  {
    ghost var input := stdin.pending;
    out := "";
    var i := 0;
    while i < n
      invariant n >= 0 ==> 0 <= i <= n
      invariant n < 0 ==> i == 0
      invariant out == Echo(input, i)
      invariant stdin.pending == input[Min(i, |input|)..]
      invariant stdin.readCount == old(stdin.readCount) + i
    {
      var line := stdin.ReadLine();
      assert line == LineAt(input, i);
      out := out + line + "\n";
      i := i + 1;
    }
  }

  /** On exhausted input every read yields "" and only the newlines are written. */
  lemma {:induction false} EchoExhausted(n: nat)
    ensures Echo([], n) == seq(n, _ => '\n')
  {
    if n > 0 {
      EchoExhausted(n - 1);
      assert Echo([], n) == seq(n - 1, _ => '\n') + "" + "\n";
    }
  }

  /** While input lasts, each line is written as read and then followed by one newline. */
  lemma {:induction false} EchoLines(input: seq<string>, n: nat)
    requires n <= |input|
    ensures Echo(input, n) == Concat(seq(n, i requires 0 <= i < |input| => input[i] + "\n"))
  {
    if n > 0 {
      EchoLines(input, n - 1);
      var pieces := seq(n, i requires 0 <= i < |input| => input[i] + "\n");
      assert pieces[..n - 1] == seq(n - 1, i requires 0 <= i < |input| => input[i] + "\n");
    }
  }

  /** One file's block in multi-file mode: the header line, its last lines, and an empty line. */
  function Block(f: File): string {
    "==> " + f.path + " <==\n" + Concat(LastLines(f.lines, FileLineCount)) + "\n"
  }

  function Blocks(files: seq<File>): string {
    if files == [] then "" else Blocks(files[..|files| - 1]) + Block(files[|files| - 1])
  }

  /** What tail_func writes for its file arguments: one file's last ten lines as they are, or for
      several files a block per file in argument order. With no file it reads stdin instead. */
  function TailFiles(files: seq<File>): string
    requires |files| > 0
  {
    if |files| == 1 then Concat(LastLines(files[0].lines, FileLineCount)) else Blocks(files)
  }

  /** The file branch of tail_func: the file's last lines, or a framed block per file. */
  method TailOfFiles(files: seq<File>) returns (out: string)
    requires |files| > 0
    ensures out == TailFiles(files)
  {
    if |files| == 1 {
      out := ReadLastNLines(files[0].lines, FileLineCount);
    } else {
      out := "";
      for i := 0 to |files|
        invariant out == Blocks(files[..i])
      {
        assert files[..i + 1][..i] == files[..i];
        var body := ReadLastNLines(files[i].lines, FileLineCount);
        var block := "==> " + files[i].path + " <==\n" + body + "\n";
        assert block == Block(files[i]);
        assert Blocks(files[..i + 1]) == Blocks(files[..i]) + block;
        out := out + block;
      }
      assert files[..|files|] == files;
    }
  }

  /** tail_func: the files when there are any, otherwise 17 lines of stdin. */
  method TailFunc(files: seq<File>, stdin: Stdin) returns (out: string)
    modifies stdin
    ensures |files| > 0 ==>
      out == TailFiles(files) && stdin.pending == old(stdin.pending) && stdin.readCount == old(stdin.readCount)
    ensures |files| == 0 ==>
      && out == Echo(old(stdin.pending), StdinLineCount)
      && stdin.readCount == old(stdin.readCount) + StdinLineCount
      && stdin.pending == old(stdin.pending)[Min(StdinLineCount, |old(stdin.pending)|)..]
  {
    if |files| == 0 {
      out := ReadLastNLinesFromStdin(stdin, StdinLineCount);
    } else {
      out := TailOfFiles(files);
    }
  }

  /** Every block starts with its header line and ends with an empty line, and holds at most ten
      lines of its file, the last ones. */
  lemma BlockShape(f: File)
    ensures var header := "==> " + f.path + " <==\n";
      var b := Block(f);
      && b[..|header|] == header
      && b[|b| - 1] == '\n'
      && b[|header|..|b| - 1] == Concat(LastLines(f.lines, FileLineCount))
      && |LastLines(f.lines, FileLineCount)| == Min(FileLineCount, |f.lines|)
  {
  }
}
