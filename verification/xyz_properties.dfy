/**
 * What `parseXYZ` promises about its input: which texts it accepts, which
 * atoms it produces, and which parts of the text it never looks at.
 */
module XyzProperties {
  import opened Wrappers
  import opened Strings
  import opened Tokens
  import opened JsNumbers
  import opened ParseXyz

  /** A text is accepted exactly when it is well formed. */
  lemma {:induction false} ValidIffWellFormed(text: string, parseFloat: FloatReader)
    ensures ParseXYZ(text, parseFloat).isValid <==> WellFormed(Lines(text), parseFloat)
  {
    var lines := Lines(text);
    LinesValidIffWellFormed(lines, parseFloat);
    assert ParseXYZ(text, parseFloat).isValid <==> ParseLinesDetailed(lines, parseFloat).Success?;
  }

  /** `ValidIffWellFormed` on the split text. */
  lemma {:induction false} LinesValidIffWellFormed(lines: seq<string>, parseFloat: FloatReader)
    requires |lines| >= 1
    ensures ParseLinesDetailed(lines, parseFloat).Success? <==> WellFormed(lines, parseFloat)
  {
    var count := AtomCount(lines);
    if count.Some? && |lines| >= count.value + FIRST_LINES {
      var end := count.value + FIRST_LINES;
      assert ParseLinesDetailed(lines, parseFloat) == ParseBody(lines, FIRST_LINES, end, parseFloat);
      ParseBodySpec(lines, FIRST_LINES, end, parseFloat);
    }
  }

  /** An accepted text yields, for every k, the atom of line k + 2: id k,
      token 0 of the line verbatim as the element, tokens 1-3 as position. */
  lemma {:induction false} ValidAtoms(text: string, parseFloat: FloatReader)
    requires ParseXYZ(text, parseFloat).isValid
    ensures AtomCount(Lines(text)).Some?
    ensures |ParseXYZ(text, parseFloat).atoms.value| == BodyLength(AtomCount(Lines(text)).value)
    ensures DescribesBody(Lines(text), ParseXYZ(text, parseFloat).atoms.value, parseFloat)
  {
    var lines := Lines(text);
    assert ParseLinesDetailed(lines, parseFloat) == Success(ParseXYZ(text, parseFloat).atoms.value);
    var atoms := AcceptedLines(lines, parseFloat);
    var n := AtomCount(lines).value;
    forall k: nat | k < |atoms| ensures DescribesAtom(lines, atoms, k, parseFloat) {
      BodyAtom(lines, n, atoms, k, parseFloat);
    }
    assert DescribesBody(lines, atoms, parseFloat);
  }

  /** Atom k of the loop over lines 2 .. n + 1 is the atom of line k + 2. */
  lemma {:induction false} BodyAtom(lines: seq<string>, n: int, atoms: seq<Atom>, k: nat, parseFloat: FloatReader)
    requires n + FIRST_LINES <= |lines|
    requires ParseBody(lines, FIRST_LINES, n + FIRST_LINES, parseFloat) == Success(atoms)
    requires k < |atoms|
    ensures k + FIRST_LINES < |lines|
    ensures IsAtomLine(lines[k + FIRST_LINES], parseFloat)
    ensures atoms[k] == AtomOfLine(lines[k + FIRST_LINES], k, parseFloat)
  {
    ParseBodySpec(lines, FIRST_LINES, n + FIRST_LINES, parseFloat);
    assert FIRST_LINES <= FIRST_LINES + k < n + FIRST_LINES;
    assert atoms[k] == AtomOfLine(lines[FIRST_LINES + k], FIRST_LINES + k - FIRST_LINES, parseFloat);
  }

  /** Accepted lines hold the atoms the loop over lines 2 .. count + 1
      produced. */
  lemma {:induction false} AcceptedLines(lines: seq<string>, parseFloat: FloatReader) returns (atoms: seq<Atom>)
    requires |lines| >= 1 && ParseLinesDetailed(lines, parseFloat).Success?
    ensures atoms == ParseLinesDetailed(lines, parseFloat).value
    ensures AtomCount(lines).Some?
    ensures |lines| >= AtomCount(lines).value + FIRST_LINES
    ensures |atoms| == BodyLength(AtomCount(lines).value)
    ensures ParseBody(lines, FIRST_LINES, AtomCount(lines).value + FIRST_LINES, parseFloat) == Success(atoms)
  {
    atoms := ParseLinesDetailed(lines, parseFloat).value;
  }

  /** Conversely, a well-formed text is accepted with the atoms its body
      lines describe. */
  lemma {:induction false} WellFormedAccepted(text: string, parseFloat: FloatReader, atoms: seq<Atom>)
    requires WellFormed(Lines(text), parseFloat)
    requires |atoms| == BodyLength(AtomCount(Lines(text)).value)
    requires forall k :: 0 <= k < |atoms| ==>
               atoms[k] == AtomOfLine(Lines(text)[k + FIRST_LINES], k, parseFloat)
    ensures ParseXYZ(text, parseFloat) == ParsedXYZResult(true, Some(atoms))
  {
    var lines := Lines(text);
    LinesAccepted(lines, parseFloat, atoms);
  }

  /** `WellFormedAccepted` on the split text. */
  lemma {:induction false} LinesAccepted(lines: seq<string>, parseFloat: FloatReader, atoms: seq<Atom>)
    requires |lines| >= 1 && WellFormed(lines, parseFloat)
    requires |atoms| == BodyLength(AtomCount(lines).value)
    requires forall k :: 0 <= k < |atoms| ==>
               atoms[k] == AtomOfLine(lines[k + FIRST_LINES], k, parseFloat)
    ensures ParseLinesDetailed(lines, parseFloat) == Success(atoms)
  {
    var end := AtomCount(lines).value + FIRST_LINES;
    ParseBodySpec(lines, FIRST_LINES, end, parseFloat);
    var body := ParseBody(lines, FIRST_LINES, end, parseFloat);
    assert body.Success?;
    var r := body.value;
    assert |r| == |atoms|;
    forall k | 0 <= k < |atoms| ensures r[k] == atoms[k] {
      assert r[k] == AtomOfLine(lines[FIRST_LINES + k], FIRST_LINES + k - FIRST_LINES, parseFloat);
    }
    assert r == atoms;
    assert ParseLinesDetailed(lines, parseFloat) == body;
  }

  /** No leading integer on the first line: rejected, with no atoms. */
  lemma {:induction false} MalformedCountInvalid(text: string, parseFloat: FloatReader)
    requires AtomCount(Lines(text)).None?
    ensures ParseXYZ(text, parseFloat) == ParsedXYZResult(false, None)
    ensures ParseDetailed(text, parseFloat) == Failure(MalformedCount)
  {
  }

  /** Fewer than count + 2 lines: rejected, with no atoms. */
  lemma {:induction false} TruncatedBodyInvalid(text: string, parseFloat: FloatReader)
    requires AtomCount(Lines(text)).Some?
    requires |Lines(text)| < AtomCount(Lines(text)).value + FIRST_LINES
    ensures ParseXYZ(text, parseFloat) == ParsedXYZResult(false, None)
    ensures ParseDetailed(text, parseFloat) == Failure(TruncatedBody)
  {
  }

  /** A declared count of 0 is accepted, with no atoms, exactly when the text
      holds a newline (so that there are two lines). */
  lemma {:induction false} ZeroCountNeedsNewline(text: string, parseFloat: FloatReader)
    requires AtomCount(Lines(text)) == Some(0)
    ensures ParseXYZ(text, parseFloat).isValid <==> '\n' in text
    ensures ParseXYZ(text, parseFloat).isValid ==> ParseXYZ(text, parseFloat).atoms == Some([])
  {
    SinglePieceIffNoSeparator(text, '\n');
  }

  /** A negative declared count passes the length check, the loop runs zero
      times, and the text is accepted with no atoms. */
  lemma {:induction false} NegativeCountValid(text: string, parseFloat: FloatReader)
    requires AtomCount(Lines(text)).Some? && AtomCount(Lines(text)).value < 0
    ensures ParseXYZ(text, parseFloat) == ParsedXYZResult(true, Some([]))
  {
  }

  /** A body line with fewer than four tokens rejects the whole text; an
      empty line (one empty token) is such a line. */
  lemma {:induction false} ShortLineInvalid(text: string, i: nat, parseFloat: FloatReader)
    requires AtomCount(Lines(text)).Some?
    requires FIRST_LINES <= i < AtomCount(Lines(text)).value + FIRST_LINES
    requires i < |Lines(text)|
    requires |SplitWs(Lines(text)[i])| < 4
    ensures ParseXYZ(text, parseFloat) == ParsedXYZResult(false, None)
  {
    var lines := Lines(text);
    assert !IsAtomLine(lines[i], parseFloat);
    NonAtomLineRejects(lines, i, parseFloat);
  }

  /** A body line whose token 1, 2 or 3 reads as NaN rejects the whole text. */
  lemma {:induction false} NaNCoordinateInvalid(text: string, i: nat, c: nat, parseFloat: FloatReader)
    requires AtomCount(Lines(text)).Some?
    requires FIRST_LINES <= i < AtomCount(Lines(text)).value + FIRST_LINES
    requires i < |Lines(text)|
    requires 1 <= c <= 3 && c < |SplitWs(Lines(text)[i])|
    requires SplitWs(Lines(text)[i])[c] !in parseFloat
    ensures ParseXYZ(text, parseFloat) == ParsedXYZResult(false, None)
  {
    var lines := Lines(text);
    NaNTokenNotAtomLine(lines[i], c, parseFloat);
    NonAtomLineRejects(lines, i, parseFloat);
  }

  /** A line whose token 1, 2 or 3 reads as NaN is not an atom line. */
  lemma {:induction false} NaNTokenNotAtomLine(line: string, c: nat, parseFloat: FloatReader)
    requires 1 <= c <= 3 && c < |SplitWs(line)|
    requires SplitWs(line)[c] !in parseFloat
    ensures !IsAtomLine(line, parseFloat)
  {
  }

  /** A body line in range that is not an atom line rejects the text. */
  lemma {:induction false} NonAtomLineRejects(lines: seq<string>, i: nat, parseFloat: FloatReader)
    requires |lines| >= 1 && AtomCount(lines).Some?
    requires FIRST_LINES <= i < AtomCount(lines).value + FIRST_LINES
    requires i < |lines|
    requires !IsAtomLine(lines[i], parseFloat)
    ensures ParseLinesDetailed(lines, parseFloat).Failure?
  {
    var end := AtomCount(lines).value + FIRST_LINES;
    if |lines| >= end {
      ParseBodySpec(lines, FIRST_LINES, end, parseFloat);
    }
  }

  /** Every rejection reason means exactly its cause, and a rejected body
      line is the first body line that is not an atom line. */
  lemma {:induction false} FailFast(text: string, parseFloat: FloatReader)
    requires ParseDetailed(text, parseFloat).Failure?
    ensures var e := ParseDetailed(text, parseFloat).error;
            var lines := Lines(text);
            var count := AtomCount(lines);
            && (e == MalformedCount <==> count.None?)
            && (e == TruncatedBody <==> count.Some? && |lines| < count.value + FIRST_LINES)
            && ((e.MalformedLine? || e.NonNumericCoordinate?) ==>
                  && count.Some?
                  && |lines| >= count.value + FIRST_LINES
                  && FIRST_LINES <= e.line < count.value + FIRST_LINES
                  && !IsAtomLine(lines[e.line], parseFloat)
                  && (e.MalformedLine? <==> |SplitWs(lines[e.line])| < 4)
                  && forall j :: FIRST_LINES <= j < e.line ==> IsAtomLine(lines[j], parseFloat))
  {
    LinesFailFast(Lines(text), parseFloat);
  }

  /** `FailFast` on the split text. */
  lemma {:induction false} LinesFailFast(lines: seq<string>, parseFloat: FloatReader)
    requires |lines| >= 1 && ParseLinesDetailed(lines, parseFloat).Failure?
    ensures var e := ParseLinesDetailed(lines, parseFloat).error;
            var count := AtomCount(lines);
            && (e == MalformedCount <==> count.None?)
            && (e == TruncatedBody <==> count.Some? && |lines| < count.value + FIRST_LINES)
            && ((e.MalformedLine? || e.NonNumericCoordinate?) ==>
                  && count.Some?
                  && |lines| >= count.value + FIRST_LINES
                  && FIRST_LINES <= e.line < count.value + FIRST_LINES
                  && !IsAtomLine(lines[e.line], parseFloat)
                  && (e.MalformedLine? <==> |SplitWs(lines[e.line])| < 4)
                  && forall j :: FIRST_LINES <= j < e.line ==> IsAtomLine(lines[j], parseFloat))
  {
    var count := AtomCount(lines);
    if count.Some? && |lines| >= count.value + FIRST_LINES {
      var end := count.value + FIRST_LINES;
      assert ParseLinesDetailed(lines, parseFloat) == ParseBody(lines, FIRST_LINES, end, parseFloat);
      ParseBodyFirstFailure(lines, FIRST_LINES, end, parseFloat);
    }
  }

  /** Two line lists with the same first line, the same length and body
      lines the loop reads alike give the same outcome; line 1 is never read. */
  lemma {:induction false} SameReadingSameResult(lines1: seq<string>, lines2: seq<string>, parseFloat: FloatReader)
    requires |lines1| == |lines2| >= 1
    requires lines1[0] == lines2[0]
    requires forall j :: FIRST_LINES <= j < |lines1| ==>
               ParseAtomLine(lines1[j], j, parseFloat) == ParseAtomLine(lines2[j], j, parseFloat)
    ensures ParseLinesDetailed(lines1, parseFloat) == ParseLinesDetailed(lines2, parseFloat)
  {
    var count := AtomCount(lines1);
    if count.Some? && |lines1| >= count.value + FIRST_LINES {
      ParseBodyCongruence(lines1, lines2, FIRST_LINES, count.value + FIRST_LINES, parseFloat);
    }
  }

  /** Replacing line k (k >= 1) by a line the loop reads the same way leaves
      the result unchanged. */
  lemma {:induction false} ReplaceLineSameReading(text: string, k: nat, newLine: string, parseFloat: FloatReader)
    requires 1 <= k < |Lines(text)|
    requires '\n' !in newLine
    requires k >= FIRST_LINES ==>
               ParseAtomLine(newLine, k, parseFloat) == ParseAtomLine(Lines(text)[k], k, parseFloat)
    ensures ParseXYZ(JoinWith(Lines(text)[k := newLine], '\n'), parseFloat) == ParseXYZ(text, parseFloat)
  {
    var lines := Lines(text);
    var lines' := lines[k := newLine];
    SplitJoinOn(lines', '\n');
    SameReadingSameResult(lines', lines, parseFloat);
  }

  /** The comment line has no effect on the result. */
  lemma {:induction false} CommentLineIgnored(head: string, comment1: string, comment2: string, rest: string,
                           parseFloat: FloatReader)
    requires '\n' !in head && '\n' !in comment1 && '\n' !in comment2
    ensures ParseXYZ(head + "\n" + comment1 + "\n" + rest, parseFloat)
            == ParseXYZ(head + "\n" + comment2 + "\n" + rest, parseFloat)
  {
    var lines1 := HeaderLines(head, comment1, rest);
    var lines2 := HeaderLines(head, comment2, rest);
    SameReadingSameResult(lines1, lines2, parseFloat);
  }

  /** The lines of a text made of a first line, a comment line and a rest. */
  lemma {:induction false} HeaderLines(head: string, comment: string, rest: string) returns (lines: seq<string>)
    requires '\n' !in head && '\n' !in comment
    ensures lines == Lines(head + "\n" + comment + "\n" + rest)
    ensures lines == [head, comment] + Lines(rest)
  {
    var tail := comment + "\n" + rest;
    LinesCons(comment, rest);
    LinesCons(head, tail);
    assert head + "\n" + comment + "\n" + rest == head + "\n" + tail;
    lines := [head] + Lines(tail);
    assert lines == [head, comment] + Lines(rest);
  }

  /** A first line without a newline is the first of the lines. */
  lemma {:induction false} LinesCons(head: string, rest: string)
    requires '\n' !in head
    ensures Lines(head + "\n" + rest) == [head] + Lines(rest)
  {
    SplitOnConcat(head, rest, '\n');
    SplitOnNoSeparator(head, '\n');
    assert head + "\n" + rest == head + ['\n'] + rest;
  }

  /** Lines past index count + 1 have no effect: appending lines to a text
      that already has enough of them does not change the result. */
  lemma {:induction false} TrailingLinesIgnored(text: string, extra: string, parseFloat: FloatReader)
    requires AtomCount(Lines(text)).Some? ==>
               |Lines(text)| >= AtomCount(Lines(text)).value + FIRST_LINES
    ensures ParseXYZ(text + "\n" + extra, parseFloat) == ParseXYZ(text, parseFloat)
  {
    var lines := Lines(text);
    SplitOnConcat(text, extra, '\n');
    AppendedLinesIgnored(lines, Lines(extra), parseFloat);
  }

  /** Lines appended after the body do not change the outcome. */
  lemma {:induction false} AppendedLinesIgnored(lines: seq<string>, more: seq<string>, parseFloat: FloatReader)
    requires |lines| >= 1
    requires AtomCount(lines).Some? ==> |lines| >= AtomCount(lines).value + FIRST_LINES
    ensures ParseLinesDetailed(lines + more, parseFloat) == ParseLinesDetailed(lines, parseFloat)
  {
    var longer := lines + more;
    assert longer[0] == lines[0];
    var count := AtomCount(lines);
    if count.Some? {
      var end := count.value + FIRST_LINES;
      forall j | FIRST_LINES <= j < end
        ensures ParseAtomLine(longer[j], j, parseFloat) == ParseAtomLine(lines[j], j, parseFloat)
      {
        assert longer[j] == lines[j];
      }
      ParseBodyCongruence(longer, lines, FIRST_LINES, end, parseFloat);
    }
  }

  /** Tokens past index 3 on a body line have no effect: a body line may be
      replaced by any line whose first four tokens are the same. */
  lemma {:induction false} ExtraTokensIgnored(text: string, k: nat, newLine: string, parseFloat: FloatReader)
    requires FIRST_LINES <= k < |Lines(text)|
    requires '\n' !in newLine
    requires |SplitWs(newLine)| >= 4 && |SplitWs(Lines(text)[k])| >= 4
    requires SplitWs(newLine)[..4] == SplitWs(Lines(text)[k])[..4]
    ensures ParseXYZ(JoinWith(Lines(text)[k := newLine], '\n'), parseFloat) == ParseXYZ(text, parseFloat)
  {
    var t1 := SplitWs(newLine);
    var t2 := SplitWs(Lines(text)[k]);
    assert forall c :: 0 <= c < 4 ==> t1[c] == t1[..4][c] == t2[..4][c] == t2[c];
    ReplaceLineSameReading(text, k, newLine, parseFloat);
  }

  /** An indented body line has an empty token 0 and then the tokens of the
      line without its indentation. So an atom read from it has the empty
      element, and its x coordinate is read from what the line's author
      meant as the element symbol. */
  lemma {:induction false} IndentedLineShifted(line: string, id: int, parseFloat: FloatReader)
    requires |line| > 0 && IsWhitespace(line[0])
    ensures SplitWs(line) == [""] + SplitWs(TrimStart(line))
    ensures IsAtomLine(line, parseFloat) ==>
              && AtomOfLine(line, id, parseFloat).element == ""
              && AtomOfLine(line, id, parseFloat).position.x == parseFloat[SplitWs(TrimStart(line))[0]]
  {
  }

  /** Collapsing every whitespace run of a line (spaces, tabs, a carriage
      return) to one space does not change the result. */
  lemma {:induction false} CollapseLineWhitespace(text: string, k: nat, parseFloat: FloatReader)
    requires 1 <= k < |Lines(text)|
    ensures ParseXYZ(JoinWith(Lines(text)[k := Collapse(Lines(text)[k])], '\n'), parseFloat)
            == ParseXYZ(text, parseFloat)
  {
    var line := Lines(text)[k];
    SplitWsCollapse(line);
    assert '\n' !in Collapse(line);
    ReplaceLineSameReading(text, k, Collapse(line), parseFloat);
  }
}
