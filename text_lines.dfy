/**
 * Line splitting of a text layer's content, as JavaScript's `text.split('\n')`
 * performs it: the pieces between line breaks, always at least one (the empty
 * string splits into one empty line, a trailing break yields a last empty line).
 */
module TextLines {

  /** The pieces of `s` between line breaks, in order. */
  function Split(s: string): (lines: seq<string>)
    ensures |lines| >= 1
  {
    if s == [] then [""]
    else
      var rest := Split(s[1..]);
      if s[0] == '\n' then [""] + rest
      else [[s[0]] + rest[0]] + rest[1..]
  }

  /** The inverse of Split: the pieces glued back together with line breaks. */
  function Join(lines: seq<string>): string
    requires |lines| >= 1
  {
    if |lines| == 1 then lines[0] else lines[0] + "\n" + Join(lines[1..])
  }

  /** Number of line breaks in `s`. */
  function CountBreaks(s: string): nat {
    if s == [] then 0 else (if s[0] == '\n' then 1 else 0) + CountBreaks(s[1..])
  }

  /** Splitting loses nothing: joining the pieces gives back the text. */
  lemma {:induction false} JoinSplit(s: string)
    ensures Join(Split(s)) == s
  {
    if s != [] {
      var rest := Split(s[1..]);
      JoinSplit(s[1..]);
      if s[0] == '\n' {
        assert Split(s) == [""] + rest;
        assert (([""] + rest)[1..]) == rest;
      } else {
        var lines := [[s[0]] + rest[0]] + rest[1..];
        assert Split(s) == lines;
        if |rest| == 1 {
          assert s == [s[0]] + s[1..];
        } else {
          assert lines[1..] == rest[1..];
          assert Join(rest) == rest[0] + "\n" + Join(rest[1..]);
          assert s == [s[0]] + s[1..];
        }
      }
    }
  }

  /** The number of lines is the number of line breaks plus one. */
  lemma {:induction false} SplitCount(s: string)
    ensures |Split(s)| == CountBreaks(s) + 1
  {
    if s != [] {
      SplitCount(s[1..]);
    }
  }

  /** No piece contains a line break. */
  lemma {:induction false} SplitPiecesHaveNoBreak(s: string)
    ensures forall i :: 0 <= i < |Split(s)| ==> '\n' !in Split(s)[i]
  {
    if s != [] {
      var rest := Split(s[1..]);
      SplitPiecesHaveNoBreak(s[1..]);
      if s[0] != '\n' {
        var lines := Split(s);
        assert lines == [[s[0]] + rest[0]] + rest[1..];
        forall i | 0 <= i < |lines| ensures '\n' !in lines[i] {
          if i == 0 {
            assert lines[0] == [s[0]] + rest[0];
          } else {
            assert lines[i] == rest[i];
          }
        }
      }
    }
  }
}
