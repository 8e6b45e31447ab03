/** `StringLines.multiline_string`: wrap a long label with `textwrap.fill`
    and optionally keep only its first lines. `fill` itself is a parameter:
    the model says nothing about how it wraps. */
module StringLines {
  import Py

  /** `s.split('\n')`: the pieces between newlines; always at least one. */
  function Split(s: string): (r: seq<string>)
    ensures |r| >= 1
    ensures forall i :: 0 <= i < |r| ==> '\n' !in r[i]
  {
    if s == [] then [""]
    else if s[0] == '\n' then [""] + Split(s[1..])
    else var rest := Split(s[1..]); [[s[0]] + rest[0]] + rest[1..]
  }

  /** `'\n'.join(lines)`. */
  function Join(lines: seq<string>): string
  {
    if |lines| == 0 then ""
    else if |lines| == 1 then lines[0]
    else lines[0] + "\n" + Join(lines[1..])
  }

  predicate NoNewlines(lines: seq<string>)
  {
    forall i :: 0 <= i < |lines| ==> '\n' !in lines[i]
  }

  /** The number of lines of a text, as the caller counts them. */
  function LineCount(s: string): nat { |Split(s)| }

  /** Joining the pieces of a split gives the text back. */
  lemma {:induction false} JoinSplit(s: string)
    ensures Join(Split(s)) == s
  {
    if s != [] {
      JoinSplit(s[1..]);
      var rest := Split(s[1..]);
      if s[0] == '\n' {
        assert s == "\n" + s[1..];
      } else if |rest| == 1 {
        assert s == [s[0]] + s[1..];
      } else {
        assert Split(s)[1..] == rest[1..];
        assert s == [s[0]] + (rest[0] + "\n" + Join(rest[1..]));
      }
    }
  }

  lemma {:induction false} SplitJoinCons(line: string, lines: seq<string>)
    requires '\n' !in line && |lines| >= 1
    ensures Split(line + "\n" + Join(lines)) == [line] + Split(Join(lines))
    decreases |line|
  {
    if line == [] {
      assert line + "\n" + Join(lines) == "\n" + Join(lines);
      assert ("\n" + Join(lines))[1..] == Join(lines);
    } else {
      var s := line + "\n" + Join(lines);
      assert s[0] == line[0] && s[1..] == line[1..] + "\n" + Join(lines);
      SplitJoinCons(line[1..], lines);
      assert [line[0]] + line[1..] == line;
    }
  }

  lemma {:induction false} SplitSingle(line: string)
    requires '\n' !in line
    ensures Split(line) == [line]
  {
    if line != [] {
      SplitSingle(line[1..]);
      assert [line[0]] + line[1..] == line;
    }
  }

  /** Splitting a join of newline-free lines gives the lines back. */
  lemma {:induction false} SplitJoin(lines: seq<string>)
    requires |lines| >= 1 && NoNewlines(lines)
    ensures Split(Join(lines)) == lines
  {
    if |lines| == 1 {
      SplitSingle(lines[0]);
    } else {
      SplitJoin(lines[1..]);
      SplitJoinCons(lines[0], lines[1..]);
    }
  }

  /** Joining the first lines of a list gives a prefix of joining them all. */
  lemma {:induction false} JoinPrefix(lines: seq<string>, k: nat)
    requires k <= |lines|
    ensures Join(lines[..k]) <= Join(lines)
  {
    if k > 0 && |lines| > 1 {
      if k == 1 {
        assert lines[..1] == [lines[0]];
      } else {
        JoinPrefix(lines[1..], k - 1);
        assert lines[..k][1..] == lines[1..][..k - 1];
      }
    }
  }

  /** `multiline_string(string, max_columns, max_lines)`; a `max_lines` of
      None and one of 0 are both false in Python and behave alike, so both
      are 0 here. */
  function MultilineString(s: string, maxColumns: int, maxLines: int,
                           fill: (string, int) -> string): (r: string)
    ensures |s| <= maxColumns ==> r == s
    ensures |s| > maxColumns ==> r <= fill(s, maxColumns)
    ensures |s| > maxColumns && maxLines == 0 ==> r == fill(s, maxColumns)
  {
    if |s| > maxColumns then
      var multiline := fill(s, maxColumns);
      if maxLines != 0 then
        var lines := Split(multiline);
        JoinSplit(multiline);
        JoinPrefix(lines, |Py.Take(lines, maxLines)|);
        Join(Py.Take(lines, maxLines))
      else
        multiline
    else
      s
  }

  /** With a positive `max_lines` the result is the first `max_lines` lines
      of the wrapped text, so it has at most that many lines. */
  lemma AtMostMaxLines(s: string, maxColumns: int, maxLines: nat,
                       fill: (string, int) -> string)
    requires |s| > maxColumns && maxLines > 0
    ensures var lines := Split(fill(s, maxColumns));
            Split(MultilineString(s, maxColumns, maxLines, fill)) == lines[..Py.Min(maxLines, |lines|)]
    ensures LineCount(MultilineString(s, maxColumns, maxLines, fill)) <= maxLines
  {
    var lines := Split(fill(s, maxColumns));
    var kept := Py.Take(lines, maxLines);
    assert |kept| >= 1;
    assert NoNewlines(kept) by {
      forall i | 0 <= i < |kept| ensures '\n' !in kept[i] { assert kept[i] == lines[i]; }
    }
    SplitJoin(kept);
  }

  /** When `max_lines` covers every wrapped line nothing is cut. */
  lemma NothingCutWhenLinesFit(s: string, maxColumns: int, maxLines: nat,
                               fill: (string, int) -> string)
    requires |s| > maxColumns && maxLines >= LineCount(fill(s, maxColumns))
    ensures MultilineString(s, maxColumns, maxLines, fill) == fill(s, maxColumns)
  {
    var lines := Split(fill(s, maxColumns));
    assert Py.Take(lines, maxLines) == lines;
    JoinSplit(fill(s, maxColumns));
  }
}
