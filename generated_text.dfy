/** The generated Ren'Py text as a sequence of lines, each an indentation
    depth and its text, and `_indent(s, n)` of the scene generator on that
    representation. The text of a line is what the generator formats; a
    user string in it may bring a line break of its own, which stays in the
    text until `_indent` splits the lines again. */
module GeneratedText {
  import opened Strings

  datatype Line = Line(depth: nat, text: string)

  /** A line as text: its indentation and then its text. */
  function RenderLine(l: Line): (r: string)
    ensures |r| == l.depth + |l.text|
    ensures r == "" <==> Blank(l)
  {
    Spaces(l.depth) + l.text
  }

  /** A line that renders as the empty string. */
  predicate Blank(l: Line)
  {
    l.depth == 0 && l.text == ""
  }

  // ---------------------------------------------------------------------------
  // `str.splitlines()`

  /** The characters at which `str.splitlines` ends a line; "\r\n" ends one
      line, not two. */
  predicate IsLineBreak(c: char)
  {
    || c == '\n' || c == '\r' || c == '\U{0B}' || c == '\U{0C}' || ('\U{1C}' <= c <= '\U{1E}')
    || c == '\U{85}' || c == '\U{2028}' || c == '\U{2029}'
  }

  predicate NoBreak(s: string)
  {
    forall i :: 0 <= i < |s| ==> !IsLineBreak(s[i])
  }

  lemma NoBreakConcat(a: string, b: string)
    ensures NoBreak(a + b) <==> NoBreak(a) && NoBreak(b)
  {
    if NoBreak(a + b) {
      forall i | 0 <= i < |a| ensures !IsLineBreak(a[i]) {
        assert (a + b)[i] == a[i];
      }
      forall i | 0 <= i < |b| ensures !IsLineBreak(b[i]) {
        assert (a + b)[|a| + i] == b[i];
      }
    } else {
      var i :| 0 <= i < |a + b| && IsLineBreak((a + b)[i]);
      if i < |a| {
        assert (a + b)[i] == a[i];
      } else {
        assert (a + b)[i] == b[i - |a|];
      }
    }
  }

  /** A number in decimal holds no line break. */
  lemma IntNoBreak(i: int)
    ensures NoBreak(IntToString(i))
  {
    NoBreakConcat("-", NatToString(if i < 0 then -i else i));
  }

  /** The index of the first line break of s, or |s| when it has none. */
  function FirstBreak(s: string): (i: nat)
    ensures i <= |s| && NoBreak(s[..i]) && (i < |s| ==> IsLineBreak(s[i]))
    decreases |s|
  {
    if s == [] || IsLineBreak(s[0]) then 0
    else
      var j := FirstBreak(s[1..]);
      assert s[..1 + j] == [s[0]] + s[1..][..j];
      1 + j
  }

  /** Where the text after the break at index i resumes. */
  function BreakEnd(s: string, i: nat): (e: nat)
    requires i < |s|
    ensures i < e <= |s|
  {
    if s[i] == '\r' && i + 1 < |s| && s[i + 1] == '\n' then i + 2 else i + 1
  }

  /** `s.splitlines()`: the pieces between the line breaks, with no empty
      piece after a final break. */
  function SplitLines(s: string): (r: seq<string>)
    ensures forall k :: 0 <= k < |r| ==> NoBreak(r[k])
    ensures r == [] <==> s == ""
    decreases |s|
  {
    if s == "" then []
    else
      var i := FirstBreak(s);
      if i == |s| then [s] else [s[..i]] + SplitLines(s[BreakEnd(s, i)..])
  }

  /** With a piece without breaks in front, a "\n" ends exactly that piece. */
  lemma SplitAfterPiece(x: string, rest: string)
    requires NoBreak(x)
    ensures SplitLines(x + "\n" + rest) == [x] + SplitLines(rest)
  {
    var s := x + "\n" + rest;
    assert s[..|x|] == x && s[|x| + 1..] == rest;
    FirstBreakAt(s, |x|);
    assert BreakEnd(s, |x|) == |x| + 1;
  }

  /** The first break is the one with no break before it. */
  lemma FirstBreakAt(s: string, j: nat)
    requires j < |s| && NoBreak(s[..j]) && IsLineBreak(s[j])
    ensures FirstBreak(s) == j
  {
  }

  /** Splitting joined pieces gives the pieces back, when none holds a break
      and the last is not empty (`"a\n".splitlines()` is `["a"]`). */
  lemma {:induction false} SplitJoin(xs: seq<string>)
    requires forall k :: 0 <= k < |xs| ==> NoBreak(xs[k])
    requires xs == [] || xs[|xs| - 1] != ""
    ensures SplitLines(Join(xs, "\n")) == xs
    decreases |xs|
  {
    if |xs| == 1 {
      assert FirstBreak(xs[0]) == |xs[0]|;
    } else if |xs| > 1 {
      SplitJoin(xs[1..]);
      SplitAfterPiece(xs[0], Join(xs[1..], "\n"));
    }
  }

  /** The only line breaks of s are newlines. */
  predicate OnlyNewlines(s: string)
  {
    forall i :: 0 <= i < |s| && IsLineBreak(s[i]) ==> s[i] == '\n'
  }

  /** Joining the pieces gives the text back, when its only breaks are
      newlines and it does not end with one. */
  lemma {:induction false} JoinSplit(s: string)
    requires OnlyNewlines(s)
    requires s == "" || s[|s| - 1] != '\n'
    ensures Join(SplitLines(s), "\n") == s
    decreases |s|
  {
    if s != "" {
      var i := FirstBreak(s);
      if i < |s| {
        var x, rest := s[..i], s[i + 1..];
        assert s[i] == '\n';
        assert s == x + "\n" + rest;
        hide SplitLines, FirstBreak, BreakEnd, Join;
        SplitAfterPiece(x, rest);
        assert rest != "" && rest[|rest| - 1] == s[|s| - 1];
        assert OnlyNewlines(rest) by {
          forall j | 0 <= j < |rest| && IsLineBreak(rest[j]) ensures rest[j] == '\n' {
            assert rest[j] == s[i + 1 + j];
          }
        }
        JoinSplit(rest);
        JoinConcat([x], SplitLines(rest), "\n");
      }
    }
  }

  // ---------------------------------------------------------------------------
  // `_indent(s, n)`

  /** `pad + line if line else ""` for one piece of the split text. */
  function IndentPiece(p: string, n: nat): (r: Line)
    ensures RenderLine(r) == if p == "" then "" else Spaces(n) + p
    ensures r.text == p && (Blank(r) <==> p == "")
  {
    if p == "" then Line(0, "") else Line(n, p)
  }

  /** `_indent(s, n)` of the text of the lines: the text split at every line
      break, each non-empty piece prefixed by n spaces and each empty piece
      left empty. The lines that come out hold no break. */
  function Indent(ls: seq<Line>, n: nat): (r: seq<Line>)
    ensures |r| == |SplitLines(Render(ls))|
    ensures forall k :: 0 <= k < |r| ==> NoBreak(r[k].text) && (Blank(r[k]) || r[k].depth == n)
  {
    var ps := SplitLines(Render(ls));
    seq(|ps|, k requires 0 <= k < |ps| => IndentPiece(ps[k], n))
  }

  /** A line renders without a break exactly when its text has none. */
  lemma RenderNoBreak(l: Line)
    ensures NoBreak(RenderLine(l)) <==> NoBreak(l.text)
  {
    var r := RenderLine(l);
    if NoBreak(l.text) {
      forall i | 0 <= i < |r| ensures !IsLineBreak(r[i]) {
        if i >= l.depth {
          assert r[i] == l.text[i - l.depth];
        }
      }
    } else {
      var i :| 0 <= i < |l.text| && IsLineBreak(l.text[i]);
      assert r[l.depth + i] == l.text[i];
    }
  }

  /** When no line holds a break and the last line is not blank, indenting
      keeps the lines one for one: each non-blank line gets n more spaces
      in front and each blank line stays empty. */
  lemma IndentLines(ls: seq<Line>, n: nat)
    requires forall k :: 0 <= k < |ls| ==> NoBreak(ls[k].text)
    requires ls == [] || !Blank(ls[|ls| - 1])
    ensures |Indent(ls, n)| == |ls|
    ensures forall k :: 0 <= k < |ls| ==>
              RenderLine(Indent(ls, n)[k]) == if Blank(ls[k]) then "" else Spaces(n) + RenderLine(ls[k])
  {
    var xs := seq(|ls|, k requires 0 <= k < |ls| => RenderLine(ls[k]));
    forall k | 0 <= k < |ls| ensures NoBreak(xs[k]) {
      RenderNoBreak(ls[k]);
    }
    SplitJoin(xs);
    assert SplitLines(Render(ls)) == xs;
  }

  /** A text holding a newline is split at it, and every piece is padded:
      `_indent("a\nb", 8)` is `"        a\n        b"`. */
  lemma IndentSplitsText()
    ensures Indent([Line(0, "add \"a\nb\"")], 8) == [Line(8, "add \"a"), Line(8, "b\"")]
  {
    hide SplitLines, FirstBreak;
    var x, y := "add \"a", "b\"";
    var s := x + "\n" + y;
    assert s == "add \"a\nb\"";
    assert Spaces(0) == "";
    RenderOne(Line(0, s));
    assert RenderLine(Line(0, s)) == s;
    assert NoBreak(x) && NoBreak(y);
    SplitJoin([x, y]);
    assert Join([x, y], "\n") == s;
    var ps := SplitLines(Render([Line(0, s)]));
    assert ps == [x, y];
    assert Indent([Line(0, s)], 8) == [IndentPiece(x, 8), IndentPiece(y, 8)];
  }

  /** One line renders as itself. */
  lemma RenderOne(l: Line)
    ensures Render([l]) == RenderLine(l)
  {
    assert seq(1, k requires 0 <= k < 1 => RenderLine([l][k])) == [RenderLine(l)];
  }

  /** Indenting twice is indenting once by the sum, unless the text ends in
      an empty piece, which the second split drops. */
  lemma IndentTwice(ls: seq<Line>, a: nat, b: nat)
    requires var ps := SplitLines(Render(ls)); ps == [] || ps[|ps| - 1] != ""
    ensures |Indent(Indent(ls, a), b)| == |Indent(ls, a + b)|
    ensures forall k :: 0 <= k < |Indent(ls, a + b)| ==>
              RenderLine(Indent(Indent(ls, a), b)[k]) == RenderLine(Indent(ls, a + b)[k])
  {
    hide SplitLines, FirstBreak, Render, Indent;
    var ps := SplitLines(Render(ls));
    var once := Indent(ls, a);
    if ps != [] {
      IndentAt(ls, a, |ps| - 1);
    }
    IndentLines(once, b);
    forall k | 0 <= k < |ps| ensures RenderLine(Indent(once, b)[k]) == RenderLine(Indent(ls, a + b)[k]) {
      IndentTwiceAt(ls, a, b, k, RenderLine(Indent(once, b)[k]));
    }
  }

  /** One line of IndentTwice, given how the second indentation renders it. */
  lemma IndentTwiceAt(ls: seq<Line>, a: nat, b: nat, k: nat, r: string)
    requires k < |SplitLines(Render(ls))|
    requires var once := Indent(ls, a); k < |once| && r == if Blank(once[k]) then "" else Spaces(b) + RenderLine(once[k])
    ensures r == RenderLine(Indent(ls, a + b)[k])
  {
    hide SplitLines, FirstBreak, Render, Indent, RenderLine, Spaces;
    IndentAt(ls, a, k);
    IndentAt(ls, a + b, k);
    SpacesAdd(b, a);
  }

  lemma IndentAt(ls: seq<Line>, n: nat, k: nat)
    requires k < |SplitLines(Render(ls))|
    ensures Indent(ls, n)[k] == IndentPiece(SplitLines(Render(ls))[k], n)
  {
  }

  lemma SpacesAdd(a: nat, b: nat)
    ensures Spaces(a + b) == Spaces(a) + Spaces(b)
  {
  }

  /** `"\n".join(lines)` */
  function Render(ls: seq<Line>): string
  {
    Join(seq(|ls|, k requires 0 <= k < |ls| => RenderLine(ls[k])), "\n")
  }

  /** The lines of several blocks, one after the other: what appending each
      block's lines to a list in a loop yields. */
  function Flatten(parts: seq<seq<Line>>): (r: seq<Line>)
    decreases |parts|
  {
    if parts == [] then [] else Flatten(parts[..|parts| - 1]) + parts[|parts| - 1]
  }

  /** Two non-empty runs of lines, one after the other, render as their
      texts joined by a newline. */
  lemma RenderConcat(a: seq<Line>, b: seq<Line>)
    requires a != [] && b != []
    ensures Render(a + b) == Render(a) + "\n" + Render(b)
  {
    var ra := seq(|a|, k requires 0 <= k < |a| => RenderLine(a[k]));
    var rb := seq(|b|, k requires 0 <= k < |b| => RenderLine(b[k]));
    assert seq(|a + b|, k requires 0 <= k < |a + b| => RenderLine((a + b)[k])) == ra + rb;
    JoinConcat(ra, rb, "\n");
  }

  /** Appending text to the last line appends it to the rendered text. */
  lemma RenderAppendText(ls: seq<Line>, x: string)
    requires ls != []
    ensures var last := ls[|ls| - 1];
            Render(ls[..|ls| - 1] + [Line(last.depth, last.text + x)]) == Render(ls) + x
  {
    var last := ls[|ls| - 1];
    var init := ls[..|ls| - 1];
    var last2 := Line(last.depth, last.text + x);
    RenderOne(last);
    RenderOne(last2);
    if init == [] {
      assert ls == [last];
      assert init + [last2] == [last2];
    } else {
      assert ls == init + [last];
      RenderConcat(init, [last]);
      RenderConcat(init, [last2]);
    }
  }

  /** Moving the first line four columns right puts four spaces in front of
      the rendered text. */
  lemma RenderShiftFirst(ls: seq<Line>)
    requires ls != []
    ensures Render([Line(ls[0].depth + 4, ls[0].text)] + ls[1..]) == "    " + Render(ls)
  {
    var first := Line(ls[0].depth + 4, ls[0].text);
    SpacesAdd(4, ls[0].depth);
    assert Spaces(4) == "    ";
    RenderOne(first);
    RenderOne(ls[0]);
    if ls[1..] == [] {
      assert ls == [ls[0]];
      assert [first] + ls[1..] == [first];
    } else {
      assert ls == [ls[0]] + ls[1..];
      RenderConcat([first], ls[1..]);
      RenderConcat([ls[0]], ls[1..]);
    }
  }

  /** The texts of the blocks, in order. */
  function Texts(parts: seq<seq<Line>>): (r: seq<string>)
    ensures |r| == |parts| && forall k :: 0 <= k < |parts| ==> r[k] == Render(parts[k])
  {
    seq(|parts|, k requires 0 <= k < |parts| => Render(parts[k]))
  }

  lemma TextsConcat(a: seq<seq<Line>>, b: seq<seq<Line>>)
    ensures Texts(a + b) == Texts(a) + Texts(b)
  {
  }

  /** With no block empty, rendering the appended blocks is `"\n".join` of
      the blocks' texts, which is how the generator joins the texts it
      appends to its list of lines. */
  lemma {:induction false} RenderFlatten(parts: seq<seq<Line>>)
    requires forall k :: 0 <= k < |parts| ==> parts[k] != []
    ensures Render(Flatten(parts)) == Join(Texts(parts), "\n")
    decreases |parts|
  {
    if parts != [] {
      var init := parts[..|parts| - 1];
      var last := parts[|parts| - 1];
      RenderFlatten(init);
      assert Texts(parts) == Texts(init) + [Render(last)];
      assert Flatten(parts) == Flatten(init) + last;
      if init == [] {
        assert Flatten(parts) == last;
      } else {
        assert Flatten(init) == Flatten(init[..|init| - 1]) + init[|init| - 1];
        RenderConcat(Flatten(init), last);
        JoinConcat(Texts(init), [Render(last)], "\n");
      }
    }
  }

  /** Appending one more block to the lines of the first i blocks. */
  lemma FlattenSnoc(parts: seq<seq<Line>>, i: nat)
    requires i < |parts|
    ensures Flatten(parts[..i + 1]) == Flatten(parts[..i]) + parts[i]
  {
    assert parts[..i + 1][..i] == parts[..i];
  }

  /** Where block k starts in the flattened lines. */
  function Offset(parts: seq<seq<Line>>, k: nat): nat
    requires k <= |parts|
  {
    |Flatten(parts[..k])|
  }

  /** Each block appears whole in the flattened lines, at its offset, and
      the blocks follow one another in their order. */
  lemma {:induction false} FlattenBlock(parts: seq<seq<Line>>, k: nat)
    requires k < |parts|
    ensures Offset(parts, k) + |parts[k]| == Offset(parts, k + 1) <= |Flatten(parts)|
    ensures Flatten(parts)[Offset(parts, k)..Offset(parts, k + 1)] == parts[k]
    decreases |parts|
  {
    assert parts[..k + 1][..k] == parts[..k];
    if k + 1 == |parts| {
      assert parts[..k + 1] == parts;
    } else {
      var init := parts[..|parts| - 1];
      assert init[..k] == parts[..k] && init[..k + 1] == parts[..k + 1];
      FlattenBlock(init, k);
      assert Flatten(parts) == Flatten(init) + parts[|parts| - 1];
    }
  }

  /** `block` appears whole in `lines`, starting at index `at`. */
  predicate BlockAt(lines: seq<Line>, block: seq<Line>, at: int)
  {
    && 0 <= at && at + |block| <= |lines|
    && forall i :: 0 <= i < |block| ==> lines[at + i] == block[i]
  }

  /** FlattenBlock, as a block of the flattened lines. */
  lemma FlattenBlockAt(parts: seq<seq<Line>>, k: nat)
    requires k < |parts|
    ensures BlockAt(Flatten(parts), parts[k], Offset(parts, k))
  {
    FlattenBlock(parts, k);
    SliceBlock(Flatten(parts), parts[k], Offset(parts, k));
  }

  /** A slice equal to the block is the block in place. */
  lemma SliceBlock(lines: seq<Line>, block: seq<Line>, at: int)
    requires 0 <= at && at + |block| <= |lines| && lines[at..at + |block|] == block
    ensures BlockAt(lines, block, at)
  {
    forall i | 0 <= i < |block| ensures lines[at + i] == block[i] {
      assert lines[at..at + |block|][i] == lines[at + i];
    }
  }

  /** A block stays whole when lines are put before it. */
  lemma BlockAfterPrefix(a: seq<Line>, lines: seq<Line>, block: seq<Line>, at: int)
    requires BlockAt(lines, block, at)
    ensures BlockAt(a + lines, block, |a| + at)
  {
  }

  /** A block stays whole, at the same index, when lines are put after it. */
  lemma BlockBeforeSuffix(lines: seq<Line>, b: seq<Line>, block: seq<Line>, at: int)
    requires BlockAt(lines, block, at)
    ensures BlockAt(lines + b, block, at)
  {
  }

  /** The total length is the sum of the block lengths. */
  lemma FlattenLength(parts: seq<seq<Line>>)
    ensures |Flatten(parts)| == Offset(parts, |parts|)
  {
    assert parts[..|parts|] == parts;
  }

  lemma FlattenOne(block: seq<Line>)
    ensures Flatten([block]) == block
  {
    assert [block][..0] == [];
  }

  /** Appending two lists of blocks appends their lines. */
  lemma {:induction false} FlattenConcat(a: seq<seq<Line>>, b: seq<seq<Line>>)
    ensures Flatten(a + b) == Flatten(a) + Flatten(b)
    decreases |b|
  {
    if b == [] {
      assert a + b == a;
    } else {
      var init := b[..|b| - 1];
      assert (a + b)[..|a + b| - 1] == a + init;
      FlattenConcat(a, init);
    }
  }

  /** Lines render as a non-empty text when there are two or more of them
      or the first is not blank. */
  lemma RenderNonEmpty(ls: seq<Line>)
    requires |ls| >= 2 || (ls != [] && !Blank(ls[0]))
    ensures Render(ls) != ""
  {
    if |ls| == 1 {
      RenderOne(ls[0]);
    }
  }

  /** Indenting a non-empty text leaves at least one line. */
  lemma IndentNonEmpty(ls: seq<Line>, n: nat)
    requires Render(ls) != ""
    ensures Indent(ls, n) != []
  {
  }
}
