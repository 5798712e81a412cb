/** Source text as a sequence of lines: every emitted line ends with a newline
    character, and splitting the text at its newlines gives the lines back. */
module Lines {

  const Newline: char := '\n'

  predicate NoNewline(s: string) {
    Newline !in s
  }

  predicate SingleLines(ls: seq<string>) {
    forall i :: 0 <= i < |ls| ==> NoNewline(ls[i])
  }

  /** The text made of the given lines, each terminated by a newline. */
  function JoinLines(ls: seq<string>): string {
    if ls == [] then "" else ls[0] + [Newline] + JoinLines(ls[1..])
  }

  /** The position of the first newline of s, or |s| when there is none. */
  function NewlineIndex(s: string): (k: nat)
    ensures k <= |s|
    ensures k < |s| ==> s[k] == Newline
    ensures forall j :: 0 <= j < k ==> s[j] != Newline
  {
    if s == [] || s[0] == Newline then 0 else 1 + NewlineIndex(s[1..])
  }

  /** The lines of a text; a last fragment without a newline counts as a line. */
  function SplitLines(s: string): seq<string>
    decreases |s|
  {
    if s == [] then []
    else
      var k := NewlineIndex(s);
      if k == |s| then [s] else [s[..k]] + SplitLines(s[k + 1..])
  }

  lemma {:induction false} JoinLinesConcat(a: seq<string>, b: seq<string>)
    ensures JoinLines(a + b) == JoinLines(a) + JoinLines(b)
  {
    if a == [] {
      assert a + b == b;
    } else {
      assert (a + b)[1..] == a[1..] + b;
      JoinLinesConcat(a[1..], b);
    }
  }

  lemma JoinLinesSnoc(ls: seq<string>, x: string)
    ensures JoinLines(ls + [x]) == JoinLines(ls) + x + [Newline]
  {
    JoinLinesConcat(ls, [x]);
    assert [x][1..] == [];
  }

  /** Splitting the join of newline-free lines gives back exactly those lines. */
  lemma {:induction false} SplitJoin(ls: seq<string>)
    requires SingleLines(ls)
    ensures SplitLines(JoinLines(ls)) == ls
  {
    if ls != [] {
      var s := JoinLines(ls);
      var rest := JoinLines(ls[1..]);
      assert s == ls[0] + [Newline] + rest;
      var k := NewlineIndex(s);
      assert s[|ls[0]|] == Newline;
      assert forall j :: 0 <= j < |ls[0]| ==> s[j] == ls[0][j];
      assert k == |ls[0]|;
      assert s[..k] == ls[0];
      assert s[k + 1..] == rest;
      SplitJoin(ls[1..]);
    }
  }

  /** Two lines, a run of lines, and a last line followed by a blank line. */
  lemma JoinFramed(first: string, second: string, middle: seq<string>, last: string)
    ensures JoinLines([first, second] + middle + [last, ""])
      == first + [Newline] + second + [Newline] + JoinLines(middle) + last + [Newline] + [Newline]
  {
    assert [first, second] + middle + [last, ""] == [first, second] + (middle + [last, ""]);
    JoinLinesConcat([first, second], middle + [last, ""]);
    JoinLinesConcat(middle, [last, ""]);
    assert [first, second][1..] == [second] && [second][1..] == [];
    assert [last, ""][1..] == [""] && [""][1..] == [];
  }

  /** Appending one more line to a text that ends in the join of some lines. */
  lemma AppendLine(prefix: string, ls: seq<string>, line: string)
    ensures prefix + JoinLines(ls) + line + [Newline] == prefix + JoinLines(ls + [line])
  {
    JoinLinesSnoc(ls, line);
  }

  /** Four appends in a row append the concatenation of the four pieces. */
  lemma AppendFour(c0: string, c1: string, c2: string, c3: string, c4: string, a: string, b: string, c: string, d: string)
    requires c1 == c0 + a && c2 == c1 + b && c3 == c2 + c && c4 == c3 + d
    ensures c4 == c0 + (a + b + c + d)
  {
  }

  /** The appends that emit a block framed by a header line, an opening line, a run
      of lines, a closing line and a blank line. */
  lemma AppendFramed(c0: string, c1: string, c2: string, c3: string, c4: string, c5: string, c6: string, c7: string,
                     header: string, open: string, middle: string, close: string, instance: string)
    requires c1 == c0 + header + [Newline] && c2 == c1 + open + [Newline] && c3 == c2 + middle
    requires c4 == c3 + close && c5 == c4 + instance && c6 == c5 + [Newline] && c7 == c6 + [Newline]
    ensures c7 == c0 + (header + [Newline] + open + [Newline] + middle + (close + instance) + [Newline] + [Newline])
  {
  }

  /** The appends that emit a section: one line, a run of lines, and a blank line. */
  lemma AppendSection(c0: string, c1: string, c2: string, c3: string, first: string, middle: seq<string>)
    requires c1 == c0 + JoinLines([first]) && c2 == c1 + JoinLines(middle) && c3 == c2 + [Newline]
    ensures c3 == c0 + JoinLines([first] + middle + [""])
  {
    JoinLinesConcat([first], middle);
    JoinLinesSnoc([first] + middle, "");
  }
}
