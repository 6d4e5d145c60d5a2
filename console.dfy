/** What the command-line utilities (hw1/) read: text files, given as the lines that iterating
    over them yields, and standard input, a stream of such lines consumed by readline() and
    input(). Opening files and the terminal itself are not modelled. */
module Console {
  import opened Outcomes

  /** A file argument: its path and the lines it yields. */
  datatype File = File(path: string, lines: seq<string>)

  /** The shape of the lines a text stream yields: every line but the last ends in a newline. */
  predicate StreamLines(lines: seq<string>) {
    forall k :: 0 <= k < |lines| - 1 ==> lines[k] != [] && lines[k][|lines[k]| - 1] == '\n'
  }

  /** s without its final newline, as input() returns a line. */
  function ChopNewline(s: string): (r: string)
    ensures s != [] && s[|s| - 1] == '\n' ==> r + "\n" == s
    ensures (s == [] || s[|s| - 1] != '\n') ==> r == s
  {
    if s != [] && s[|s| - 1] == '\n' then s[..|s| - 1] else s
  }

  /** sys.stdin: the lines not yet consumed, and how many reads it has served. */
  class Stdin {
    var pending: seq<string>
    var readCount: nat

    constructor (lines: seq<string>)
      ensures pending == lines && readCount == 0
    {
      pending := lines;
      readCount := 0;
    }

    /** sys.stdin.readline(): the next line with its newline, or "" once the input is exhausted. */
    method ReadLine() returns (line: string)
      modifies this
      ensures old(pending) == [] ==> line == "" && pending == []
      ensures old(pending) != [] ==> line == old(pending)[0] && pending == old(pending)[1..]
      ensures readCount == old(readCount) + 1
    {
      if pending == [] {
        line := "";
      } else {
        line := pending[0];
        pending := pending[1..];
      }
      readCount := readCount + 1;
    }

    /** input(): the next line without its newline; EOFError once the input is exhausted. */
    method Input() returns (r: Outcome<string>)
      modifies this
      ensures old(pending) == [] ==> r == Raised(EOFError) && pending == []
      ensures old(pending) != [] ==> r == Ok(ChopNewline(old(pending)[0])) && pending == old(pending)[1..]
      ensures readCount == old(readCount) + 1
    {
      if pending == [] {
        r := Raised(EOFError);
      } else {
        r := Ok(ChopNewline(pending[0]));
        pending := pending[1..];
      }
      readCount := readCount + 1;
    }
  }
}
