/** The nl clone (hw1/nl.py): every line, blank ones included, is numbered from 1, the number
    right-aligned in six columns, two spaces, then the line stripped of surrounding whitespace.
    Lines come from a file or from input() on standard input; what is printed is modelled as the
    list of printed lines. */
module Nl {
  import opened Outcomes
  import opened Text
  import opened Console

  /** Width of the number column. */
  const NumberWidth := 6

  /** f"{k:>6}  {line}" for the stripped line. */
  function NumberedLine(k: int, line: string): string {
    RJust(IntToString(k), NumberWidth) + "  " + Strip(line)
  }

  /** What nl prints for the lines it reads: line i (from 0) gets the number i + 1. */
  function Numbered(lines: seq<string>): (out: seq<string>)
    ensures |out| == |lines|
  {
    seq(|lines|, i requires 0 <= i < |lines| => NumberedLine(i + 1, lines[i]))
  }

  /** The layout of a numbered line: the number right-aligned in a field of at least six
      characters (a longer number is kept whole), two spaces, the stripped content. Reading the
      field back gives the number. */
  lemma NumberedLineLayout(k: int, line: string)
    requires k >= 1
    ensures var r, num := NumberedLine(k, line), IntToString(k);
      var w := Max(|num|, NumberWidth);
      && |r| == w + 2 + |Strip(line)|
      && r[..w] == RJust(num, NumberWidth)
      && r[w..w + 2] == "  "
      && r[w + 2..] == Strip(line)
      && ParseInt(TrimLeft(r[..w])) == k
  {
    var r, num := NumberedLine(k, line), IntToString(k);
    var w := Max(|num|, NumberWidth);
    var field := RJust(num, NumberWidth);
    assert r[..w] == field;
    assert num[0] != ' ' && !IsSpace(num[0]);
    TrimLeftOfPadded(field, num);
    ParseIntToString(k);
  }

  /** Stripping the padding in front of a number that starts with a digit gives the number. */
  lemma {:induction false} TrimLeftOfPadded(field: string, num: string)
    requires |num| <= |field| && field[|field| - |num|..] == num
    requires forall j :: 0 <= j < |field| - |num| ==> field[j] == ' '
    requires num != [] && !IsSpace(num[0])
    ensures TrimLeft(field) == num
    decreases |field|
  {
    if |field| > |num| {
      assert field[1..][|field| - 1 - |num|..] == num;
      TrimLeftOfPadded(field[1..], num);
    } else {
      assert field == num;
    }
  }

  /** File mode: the enumerate loop. */
  method NlFile(lines: seq<string>) returns (out: seq<string>)
    ensures out == Numbered(lines)
  {
    ghost var numbered := Numbered(lines);
    out := [];
    var i := 0;
    while i < |lines|
      invariant 0 <= i <= |lines|
      invariant out == numbered[..i]
    {
      assert numbered[i] == NumberedLine(i + 1, lines[i]);
      assert numbered[..i + 1] == numbered[..i] + [numbered[i]];
      out := out + [NumberedLine(i + 1, lines[i])];
      i := i + 1;
    }
    assert numbered[..|lines|] == numbered;
  }

  /** The lines as input() returns them: without their newline. */
  function InputLines(lines: seq<string>): (r: seq<string>)
    ensures |r| == |lines|
  {
    seq(|lines|, i requires 0 <= i < |lines| => ChopNewline(lines[i]))
  }

  /** Stdin mode: the while True loop with its counter. It stops only when input() raises
      EOFError, after one read more than there are lines. */
  method NlStdin(stdin: Stdin) returns (out: seq<string>, exc: Exception)
    modifies stdin
    ensures out == Numbered(InputLines(old(stdin.pending)))
    ensures exc == EOFError
    ensures stdin.pending == [] && stdin.readCount == old(stdin.readCount) + |old(stdin.pending)| + 1
  {
    ghost var input := stdin.pending;
    ghost var numbered := Numbered(InputLines(input));
    out := [];
    var i := 0;
    while true
      invariant 0 <= i <= |input|
      invariant stdin.pending == input[i..]
      invariant stdin.readCount == old(stdin.readCount) + i
      invariant out == numbered[..i]
      decreases |stdin.pending|
    {
      var r := stdin.Input();
      if r.Raised? {
        assert i == |input|;
        assert numbered[..i] == numbered;
        return out, r.exc;
      }
      assert r.value == ChopNewline(input[i]);
      assert numbered[i] == NumberedLine(i + 1, r.value);
      assert numbered[..i + 1] == numbered[..i] + [numbered[i]];
      out := out + [NumberedLine(i + 1, r.value)];
      i := i + 1;
    }
  }

  /** The two modes print the same thing for the same text: input() drops the newline that the
      file's lines carry, and strip() would have dropped it anyway. */
  lemma ModesAgree(lines: seq<string>)
    ensures Numbered(lines) == Numbered(InputLines(lines))
  {
    forall i | 0 <= i < |lines| ensures Strip(lines[i]) == Strip(ChopNewline(lines[i])) {
      var s := lines[i];
      if s != [] && s[|s| - 1] == '\n' {
        StripDropsNewline(ChopNewline(s));
      }
    }
  }
}
