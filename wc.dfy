/** The wc clone (hw1/wc.py): line, word and character counts of each file, their totals, and
    the aligned table printed for several files. A file is given as the lines that iterating over
    it yields; what is printed is given as the list of printed lines. */
module Wc {
  import opened Text
  import opened Console

  /** The triple wc_calc returns: lines, words, characters. */
  datatype Counts = Counts(lines: int, words: int, chars: int)

  const Zero := Counts(0, 0, 0)

  /** Component-wise sum, as the zip in wc_func adds the triples. */
  function Plus(x: Counts, y: Counts): Counts {
    Counts(x.lines + y.lines, x.words + y.words, x.chars + y.chars)
  }

  /** What one line adds: one line, its words, len(line). The words are counted as runs of
      non-whitespace, which is len(line.split()) (SplitWordsCountsRuns). */
  function LineCounts(line: string): Counts {
    Counts(1, WordCount(line), |line|)
  }

  /** The counts of a file, accumulated line by line in file order. */
  function Tally(lines: seq<string>): Counts {
    if lines == [] then Zero else Plus(Tally(lines[..|lines| - 1]), LineCounts(lines[|lines| - 1]))
  }

  /** wc_calc: the three counters incremented once per line. */
  method WcCalc(lines: seq<string>) returns (c: Counts)
    ensures c == Tally(lines)
  {
    var linesCnt, wordsCnt, symbolsCnt := 0, 0, 0;
    var i := 0;
    while i < |lines|
      invariant 0 <= i <= |lines|
      invariant Counts(linesCnt, wordsCnt, symbolsCnt) == Tally(lines[..i])
    {
      var line := lines[i];
      TallyStep(lines, i);
      SplitWordsCountsRuns(line);
      var words := |SplitWords(line)|;
      linesCnt := linesCnt + 1;
      wordsCnt := wordsCnt + words;
      symbolsCnt := symbolsCnt + |line|;
      i := i + 1;
    }
    assert lines[..|lines|] == lines;
    return Counts(linesCnt, wordsCnt, symbolsCnt);
  }

  /** One more line of the file adds its own counts to those of the lines before it. */
  lemma TallyStep(lines: seq<string>, i: nat)
    requires i < |lines|
    ensures Tally(lines[..i + 1]) == Plus(Tally(lines[..i]), LineCounts(lines[i]))
  {
    assert lines[..i + 1][..i] == lines[..i];
  }

  /** No count is negative. */
  lemma {:induction false} TallyNonNegative(lines: seq<string>)
    ensures Tally(lines).lines >= 0 && Tally(lines).words >= 0 && Tally(lines).chars >= 0
  {
    if lines != [] {
      TallyNonNegative(lines[..|lines| - 1]);
    }
  }

  /** The line count is the number of lines and the character count the length of the whole
      text, newlines included. */
  lemma {:induction false} TallyLinesChars(lines: seq<string>)
    ensures Tally(lines).lines == |lines|
    ensures Tally(lines).chars == |Concat(lines)|
  {
    if lines != [] {
      TallyLinesChars(lines[..|lines| - 1]);
    }
  }

  /** Counting words line by line gives the word count of the whole text: no word straddles a
      line break, because every line but the last ends in whitespace. */
  lemma {:induction false} TallyWords(lines: seq<string>)
    requires StreamLines(lines)
    ensures Tally(lines).words == WordCount(Concat(lines))
  {
    if lines != [] {
      var init, last := lines[..|lines| - 1], lines[|lines| - 1];
      assert StreamLines(init) by {
        forall k | 0 <= k < |init| - 1 ensures init[k] != [] && init[k][|init[k]| - 1] == '\n' {
          assert init[k] == lines[k];
        }
      }
      TallyWords(init);
      var text := Concat(init);
      assert Concat(lines) == text + last;
      RunStartsAppend(text, last, true);
      if text != [] {
        assert init != [];
        var before := init[|init| - 1];
        assert init[..|init| - 1] + [before] == init;
        assert text == Concat(init[..|init| - 1]) + before;
        assert text[|text| - 1] == before[|before| - 1] == '\n';
      }
    }
  }

  /** A line of whitespace alone adds no word. */
  lemma {:induction false} BlankLineNoWords(line: string, afterSpace: bool)
    requires forall k :: 0 <= k < |line| ==> IsSpace(line[k])
    ensures RunStarts(line, afterSpace) == 0
    decreases |line|
  {
    if line != [] {
      assert forall k :: 0 <= k < |line| - 1 ==> line[1..][k] == line[k + 1];
      BlankLineNoWords(line[1..], true);
    }
  }

  /** Counting two texts one after the other is counting each and adding. */
  lemma {:induction false} TallyAppend(a: seq<string>, b: seq<string>)
    ensures Tally(a + b) == Plus(Tally(a), Tally(b))
    decreases |b|
  {
    if b == [] {
      assert a + b == a;
    } else {
      var init, last := b[..|b| - 1], b[|b| - 1];
      assert (a + b)[..|a + b| - 1] == a + init;
      assert (a + b)[|a + b| - 1] == last;
      TallyAppend(a, init);
      var x, y, z := Tally(a), Tally(init), LineCounts(last);
      assert Tally(a + b) == Plus(Plus(x, y), z);
      assert Tally(b) == Plus(y, z);
    }
  }

  /** The running total of wc_func: the triples added up in argument order. */
  function Total(cs: seq<Counts>): Counts {
    if cs == [] then Zero else Plus(Total(cs[..|cs| - 1]), cs[|cs| - 1])
  }

  predicate NonNegative(c: Counts) {
    c.lines >= 0 && c.words >= 0 && c.chars >= 0
  }

  /** No single triple of non-negative counts exceeds the total in any component. */
  lemma {:induction false} TotalBounds(cs: seq<Counts>, k: nat)
    requires k < |cs|
    requires forall j :: 0 <= j < |cs| ==> NonNegative(cs[j])
    ensures cs[k].lines <= Total(cs).lines
    ensures cs[k].words <= Total(cs).words
    ensures cs[k].chars <= Total(cs).chars
  {
    if k < |cs| - 1 {
      TotalBounds(cs[..|cs| - 1], k);
    } else {
      TotalNonNegative(cs[..|cs| - 1]);
    }
  }

  lemma {:induction false} TotalNonNegative(cs: seq<Counts>)
    requires forall j :: 0 <= j < |cs| ==> NonNegative(cs[j])
    ensures NonNegative(Total(cs))
  {
    if cs != [] {
      TotalNonNegative(cs[..|cs| - 1]);
    }
  }

  /** One row of wc_output_data: the three counts as text and the name. */
  datatype Row = Row(lines: string, words: string, chars: string, name: string)

  function CountsRow(c: Counts, name: string): Row {
    Row(IntToString(c.lines), IntToString(c.words), IntToString(c.chars), name)
  }

  /** One line of wc_print: each count left-justified to width n, single spaces between. */
  function PrintLine(r: Row, n: int): string {
    LJust(r.lines, n) + " " + LJust(r.words, n) + " " + LJust(r.chars, n) + " " + r.name
  }

  /** When no count is wider than n, the counts fill columns of exactly n characters and the
      name starts at the same column on every line. */
  lemma PrintLineAligned(r: Row, n: nat)
    requires |r.lines| <= n && |r.words| <= n && |r.chars| <= n
    ensures var line := PrintLine(r, n);
      && |line| == 3 * n + 3 + |r.name|
      && line[..n] == LJust(r.lines, n)
      && line[n + 1..2 * n + 1] == LJust(r.words, n)
      && line[2 * n + 2..3 * n + 2] == LJust(r.chars, n)
      && line[n] == line[2 * n + 1] == line[3 * n + 2] == ' '
      && line[3 * n + 3..] == r.name
  {
    var x, y, z := LJust(r.lines, n), LJust(r.words, n), LJust(r.chars, n);
    assert |x| == n && |y| == n && |z| == n;
    var line := x + " " + y + " " + z + " " + r.name;
    assert line[..n] == x;
    assert line[n + 1..2 * n + 1] == y;
    assert line[2 * n + 2..3 * n + 2] == z;
    assert line[3 * n + 3..] == r.name;
  }

  /** wc_print: one line per row, in order. */
  method WcPrint(data: seq<Row>, n: int) returns (out: seq<string>)
    ensures |out| == |data|
    ensures forall k :: 0 <= k < |data| ==> out[k] == PrintLine(data[k], n)
  {
    out := [];
    for i := 0 to |data|
      invariant |out| == i
      invariant forall k :: 0 <= k < i ==> out[k] == PrintLine(data[k], n)
    {
      out := out + [PrintLine(data[i], n)];
    }
  }

  function FileCounts(files: seq<File>): (cs: seq<Counts>)
    ensures |cs| == |files|
  {
    seq(|files|, k requires 0 <= k < |files| => Tally(files[k].lines))
  }

  /** n of wc_func: the number of digits of the largest total. */
  function PadWidth(total: Counts): nat {
    |IntToString(Max(Max(total.lines, total.words), total.chars))|
  }

  /** What wc_func prints. No file: nothing. One file: "l w c path", unpadded. Several files:
      one padded line per file in argument order, then the padded "total" line. */
  function Report(files: seq<File>): seq<string> {
    if |files| == 0 then []
    else if |files| == 1 then
      var c := Tally(files[0].lines);
      [IntToString(c.lines) + " " + IntToString(c.words) + " " + IntToString(c.chars) + " " + files[0].path]
    else
      Printed(Rows(files), PadWidth(Total(FileCounts(files))))
  }

  /** wc_output_data for several files: one row per file, then the "total" row. */
  function Rows(files: seq<File>): (rows: seq<Row>)
    ensures |rows| == |files| + 1
  {
    var cs := FileCounts(files);
    seq(|files|, k requires 0 <= k < |files| => CountsRow(cs[k], files[k].path)) + [CountsRow(Total(cs), "total")]
  }

  function Printed(data: seq<Row>, n: int): (out: seq<string>)
    ensures |out| == |data|
  {
    seq(|data|, k requires 0 <= k < |data| => PrintLine(data[k], n))
  }

  /** The loop of wc_func over several files: a row of counts per file, and the running total. */
  method CountFiles(files: seq<File>) returns (data: seq<Row>, total: Counts)
    ensures |data| == |files|
    ensures forall k :: 0 <= k < |files| ==> data[k] == CountsRow(FileCounts(files)[k], files[k].path)
    ensures total == Total(FileCounts(files))
  {
    ghost var cs := FileCounts(files);
    ghost var rows := seq(|files|, k requires 0 <= k < |files| => CountsRow(cs[k], files[k].path));
    data, total := [], Zero;
    var i := 0;
    while i < |files|
      invariant 0 <= i <= |files|
      invariant total == Total(cs[..i])
      invariant data == rows[..i]
    {
      var c := WcCalc(files[i].lines);
      assert c == cs[i];
      assert cs[..i + 1] == cs[..i] + [c];
      assert Total(cs[..i + 1]) == Plus(Total(cs[..i]), c);
      var row := CountsRow(c, files[i].path);
      assert rows[..i + 1] == rows[..i] + [row];
      total := Plus(total, c);
      data := data + [row];
      i := i + 1;
    }
    assert cs[..|files|] == cs;
    assert rows[..|files|] == rows;
  }

  /** wc_func over the file arguments. */
  method WcFunc(files: seq<File>) returns (out: seq<string>)
    ensures out == Report(files)
  {
    if |files| == 0 {
      return [];
    }
    if |files| == 1 {
      var c := WcCalc(files[0].lines);
      return [IntToString(c.lines) + " " + IntToString(c.words) + " " + IntToString(c.chars) + " " + files[0].path];
    }
    var data, total := CountFiles(files);
    assert total == Total(FileCounts(files));
    var n := |IntToString(Max(Max(total.lines, total.words), total.chars))|;
    data := data + [CountsRow(total, "total")];
    assert data == Rows(files);
    out := WcPrint(data, n);
    assert out == Printed(data, n);
  }

  lemma IntToStringFits(x: int, m: int)
    requires 0 <= x <= m
    ensures |IntToString(x)| <= |IntToString(m)|
  {
    NatToStringMonotone(x, m);
  }

  /** A row whose counts are between 0 and m prints in columns as wide as m's digits, so its
      name starts at column 3 * n + 3. */
  lemma RowFits(c: Counts, name: string, m: int)
    requires NonNegative(c) && c.lines <= m && c.words <= m && c.chars <= m
    ensures var n, line := |IntToString(m)|, PrintLine(CountsRow(c, name), |IntToString(m)|);
      |line| == 3 * n + 3 + |name| && line[3 * n + 3..] == name
  {
    IntToStringFits(c.lines, m);
    IntToStringFits(c.words, m);
    IntToStringFits(c.chars, m);
    PrintLineAligned(CountsRow(c, name), |IntToString(m)|);
  }

  /** The widest total, whose digits set the pad width. */
  function Widest(files: seq<File>): int {
    var total := Total(FileCounts(files));
    Max(Max(total.lines, total.words), total.chars)
  }

  /** Every count of every file lies between 0 and the widest total. */
  lemma FileCountsFit(files: seq<File>, k: nat)
    requires k < |files|
    ensures var c := FileCounts(files)[k];
      NonNegative(c) && c.lines <= Widest(files) && c.words <= Widest(files) && c.chars <= Widest(files)
  {
    var cs := FileCounts(files);
    forall j | 0 <= j < |cs| ensures NonNegative(cs[j]) {
      TallyNonNegative(files[j].lines);
    }
    TotalBounds(cs, k);
  }

  /** So do the totals themselves. */
  lemma TotalFits(files: seq<File>)
    ensures var t := Total(FileCounts(files));
      NonNegative(t) && t.lines <= Widest(files) && t.words <= Widest(files) && t.chars <= Widest(files)
  {
    var cs := FileCounts(files);
    forall j | 0 <= j < |cs| ensures NonNegative(cs[j]) {
      TallyNonNegative(files[j].lines);
    }
    TotalNonNegative(cs);
  }

  /** With several files, line k of the report prints file k's row, and the line after the
      last file prints the totals, all with the pad width of the totals. */
  lemma ReportLine(files: seq<File>, k: nat)
    requires |files| >= 2 && k <= |files|
    ensures |Report(files)| == |files| + 1
    ensures var n, cs := |IntToString(Widest(files))|, FileCounts(files);
      Report(files)[k] == if k < |files| then PrintLine(CountsRow(cs[k], files[k].path), n)
                          else PrintLine(CountsRow(Total(cs), "total"), n)
  {
    var rows := Rows(files);
    assert Report(files) == Printed(rows, |IntToString(Widest(files))|);
  }

  /** With several files every printed line has its counts in columns of exactly the pad width:
      every count is at most its total, so its digits fit. The name on line k is the k-th path,
      and on the line after the last file it is "total". */
  lemma ReportAligned(files: seq<File>, k: nat)
    requires |files| >= 2 && k <= |files|
    ensures var out, n := Report(files), PadWidth(Total(FileCounts(files)));
      var name := if k < |files| then files[k].path else "total";
      |out| == |files| + 1 && |out[k]| == 3 * n + 3 + |name| && out[k][3 * n + 3..] == name
  {
    var cs, m := FileCounts(files), Widest(files);
    ReportLine(files, k);
    if k < |files| {
      FileCountsFit(files, k);
      RowFits(cs[k], files[k].path, m);
    } else {
      TotalFits(files);
      RowFits(Total(cs), "total", m);
    }
  }

  /** The "total" line counts all the files' lines, one list after another. */
  lemma {:induction false} TotalOfFiles(files: seq<File>)
    ensures Total(FileCounts(files)) == Tally(FilesLines(files))
    decreases |files|
  {
    if files == [] {
    } else {
      var init, last := files[..|files| - 1], files[|files| - 1].lines;
      var cs, ci := FileCounts(files), FileCounts(init);
      assert cs[..|files| - 1] == ci;
      assert cs[|files| - 1] == Tally(last);
      var t, ti := Total(cs), Total(ci);
      assert t == Plus(ti, Tally(last));
      var before := FilesLines(init);
      assert FilesLines(files) == before + last;
      TotalOfFiles(init);
      assert ti == Tally(before);
      TallyAppend(before, last);
      assert Tally(before + last) == Plus(Tally(before), Tally(last));
    }
  }

  /** The lines of all the files, one file after the other. */
  function FilesLines(files: seq<File>): seq<string> {
    if files == [] then [] else FilesLines(files[..|files| - 1]) + files[|files| - 1].lines
  }
}
