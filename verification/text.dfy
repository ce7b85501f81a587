/** String helpers used by the renderers: Ruby's `Array#join`, a line view of
    multi-line text, and a scanner for the first space of a line. */
module Text {

  /** `parts` with `sep` between neighbours, as Ruby's `Array#join(sep)`. */
  function Join(parts: seq<string>, sep: string): string
    decreases |parts|
  {
    if |parts| == 0 then ""
    else if |parts| == 1 then parts[0]
    else parts[0] + sep + Join(parts[1..], sep)
  }

  /** Every line followed by a newline: the text whose lines are `lines`. */
  function Unlines(lines: seq<string>): string
    decreases |lines|
  {
    if |lines| == 0 then "" else lines[0] + "\n" + Unlines(lines[1..])
  }

  /** Each line prefixed with the two-space indentation of the entity blocks. */
  function Indent(lines: seq<string>): seq<string>
  {
    seq(|lines|, i requires 0 <= i < |lines| => "  " + lines[i])
  }

  predicate NoSpace(s: string)
  {
    forall i :: 0 <= i < |s| ==> s[i] != ' '
  }

  /** Index of the first space in `s`, or `|s|` when there is none. */
  function FirstSpace(s: string): (k: nat)
    ensures k <= |s|
    ensures NoSpace(s[..k])
    ensures k < |s| ==> s[k] == ' '
    decreases |s|
  {
    if |s| == 0 then 0
    else if s[0] == ' ' then 0
    else
      var k := 1 + FirstSpace(s[1..]);
      assert forall i :: 1 <= i < k ==> s[i] == s[1..][i - 1];
      k
  }

  /** A space-free word followed by a space is cut exactly at the end of the word. */
  lemma FirstSpaceAfterWord(w: string, rest: string)
    requires NoSpace(w)
    ensures FirstSpace(w + " " + rest) == |w|
  {
    assert (w + " " + rest)[|w|] == ' ';
  }

  lemma UnlinesCons(line: string, rest: seq<string>)
    ensures Unlines([line] + rest) == line + "\n" + Unlines(rest)
  {
  }

  lemma UnlinesThree(a: string, b: string, c: string)
    ensures Unlines([a, b, c]) == a + "\n" + b + "\n" + c + "\n"
  {
    assert [a, b, c][1..] == [b, c];
    assert [b, c][1..] == [c];
    assert Unlines([c]) == c + "\n";
    assert Unlines([b, c]) == b + "\n" + (c + "\n");
  }

  lemma {:induction false} UnlinesAppend(a: seq<string>, b: seq<string>)
    ensures Unlines(a + b) == Unlines(a) + Unlines(b)
    decreases |a|
  {
    if |a| == 0 {
      assert a + b == b;
    } else {
      assert (a + b)[1..] == a[1..] + b;
      UnlinesAppend(a[1..], b);
    }
  }

  /** Joining with newlines and closing the last line gives the line view. */
  lemma {:induction false} JoinNewlines(lines: seq<string>)
    requires |lines| > 0
    ensures Join(lines, "\n") + "\n" == Unlines(lines)
    decreases |lines|
  {
    if |lines| == 1 {
      assert lines[1..] == [];
    } else {
      JoinNewlines(lines[1..]);
    }
  }

  /** The indented join of the entity blocks is the line view of the indented lines. */
  lemma {:induction false} JoinIndented(lines: seq<string>)
    requires |lines| > 0
    ensures "  " + Join(lines, "\n  ") + "\n" == Unlines(Indent(lines))
    decreases |lines|
  {
    var ind := Indent(lines);
    if |lines| == 1 {
      assert ind[1..] == [];
    } else {
      assert ind[1..] == Indent(lines[1..]);
      JoinIndented(lines[1..]);
      calc {
        "  " + Join(lines, "\n  ") + "\n";
        "  " + (lines[0] + "\n  " + Join(lines[1..], "\n  ")) + "\n";
        ("  " + lines[0]) + "\n" + ("  " + Join(lines[1..], "\n  ") + "\n");
        ind[0] + "\n" + Unlines(ind[1..]);
      }
    }
  }

  /** Groups of lines, each group followed by one empty line. */
  function Paragraphs(groups: seq<seq<string>>): seq<string>
    decreases |groups|
  {
    if |groups| == 0 then [] else groups[0] + [""] + Paragraphs(groups[1..])
  }

  lemma ParagraphsCons(group: seq<string>, rest: seq<seq<string>>)
    ensures Paragraphs([group] + rest) == group + [""] + Paragraphs(rest)
  {
  }

  lemma {:induction false} ParagraphsAppend(a: seq<seq<string>>, b: seq<seq<string>>)
    ensures Paragraphs(a + b) == Paragraphs(a) + Paragraphs(b)
    decreases |a|
  {
    if |a| == 0 {
      assert a + b == b;
    } else {
      assert (a + b)[1..] == a[1..] + b;
      ParagraphsAppend(a[1..], b);
    }
  }

  /** Group `i` sits after all earlier groups and before all later ones. */
  lemma ParagraphAt(groups: seq<seq<string>>, i: nat)
    requires i < |groups|
    ensures Paragraphs(groups) == Paragraphs(groups[..i]) + (groups[i] + [""] + Paragraphs(groups[i + 1..]))
  {
    assert groups[..i] + groups[i..] == groups;
    ParagraphsAppend(groups[..i], groups[i..]);
    assert groups[i..] == [groups[i]] + groups[i + 1..];
    ParagraphsCons(groups[i], groups[i + 1..]);
  }

  /** Texts joined by newlines, closed by one more, are the paragraphs of
      their lines: the blank line between two blocks is the join's newline. */
  lemma {:induction false} JoinParagraphs(blocks: seq<string>, groups: seq<seq<string>>)
    requires |blocks| == |groups| > 0
    requires forall i :: 0 <= i < |blocks| ==> blocks[i] == Unlines(groups[i])
    ensures Join(blocks, "\n") + "\n" == Unlines(Paragraphs(groups))
    decreases |blocks|
  {
    UnlinesCons("", []);
    assert [""] + [] == [""];
    UnlinesAppend(groups[0], [""]);
    UnlinesAppend(groups[0] + [""], Paragraphs(groups[1..]));
    if |blocks| > 1 {
      JoinParagraphs(blocks[1..], groups[1..]);
    }
  }
}
