/**
 * An XYZ writer, as the partner of the parser: a text written from atom
 * records, one line per atom, each line ended by a newline, reads back as
 * exactly those atoms.
 */
module XyzFormat {
  import opened Wrappers
  import opened Strings
  import opened Tokens
  import opened JsNumbers
  import opened ParseXyz
  import opened XyzProperties

  /** An atom as written in a file: the element token and the three
      coordinate tokens. */
  datatype AtomRecord = AtomRecord(element: string, x: string, y: string, z: string)

  /** A non-empty token without whitespace. */
  predicate IsToken(t: string) {
    |t| > 0 && NoWhitespace(t)
  }

  /** A record that can be written and read back: four tokens, and the
      number reader reads the three coordinates. */
  predicate Writable(rec: AtomRecord, parseFloat: FloatReader) {
    && IsToken(rec.element) && IsToken(rec.x) && IsToken(rec.y) && IsToken(rec.z)
    && rec.x in parseFloat && rec.y in parseFloat && rec.z in parseFloat
  }

  /** The tokens of a record, in file order. */
  function RecordTokens(rec: AtomRecord): seq<string> {
    [rec.element, rec.x, rec.y, rec.z]
  }

  /** `"<element> <x> <y> <z>"`. */
  function FormatAtomLine(rec: AtomRecord): string {
    JoinWith(RecordTokens(rec), ' ')
  }

  /** The lines, each followed by a newline. */
  function Terminated(lines: seq<string>): string {
    if |lines| == 0 then "" else lines[0] + "\n" + Terminated(lines[1..])
  }

  /** The atom lines of the records. */
  function AtomLines(records: seq<AtomRecord>): (lines: seq<string>)
    ensures |lines| == |records|
    ensures forall k :: 0 <= k < |records| ==> lines[k] == FormatAtomLine(records[k])
  {
    if |records| == 0 then [] else [FormatAtomLine(records[0])] + AtomLines(records[1..])
  }

  /** An XYZ text: the count, the comment, and one line per record. */
  function FormatXYZ(comment: string, records: seq<AtomRecord>): string {
    FormatInt(|records|) + "\n" + comment + "\n" + Terminated(AtomLines(records))
  }

  /** The atom a record describes, given its id. */
  function RecordAtom(rec: AtomRecord, id: int, parseFloat: FloatReader): Atom
    requires Writable(rec, parseFloat)
  {
    Atom(id, rec.element, Vector3(parseFloat[rec.x], parseFloat[rec.y], parseFloat[rec.z]))
  }

  /** Newline-terminated lines split back into the lines and one empty
      line after the last newline. */
  lemma {:induction false} TerminatedLines(lines: seq<string>)
    requires forall k :: 0 <= k < |lines| ==> '\n' !in lines[k]
    ensures Lines(Terminated(lines)) == lines + [""]
  {
    if |lines| > 0 {
      TerminatedLines(lines[1..]);
      SplitOnConcat(lines[0], Terminated(lines[1..]), '\n');
      SplitOnNoSeparator(lines[0], '\n');
      assert lines == [lines[0]] + lines[1..];
    }
  }

  /** The line of a record splits into the record's four tokens. */
  lemma {:induction false} AtomLineTokens(rec: AtomRecord)
    requires IsToken(rec.element) && IsToken(rec.x) && IsToken(rec.y) && IsToken(rec.z)
    ensures SplitWs(FormatAtomLine(rec)) == RecordTokens(rec)
  {
    var tokens := RecordTokens(rec);
    assert WellFormedTokens(tokens);
    SplitJoinWs(tokens);
  }

  /** The line of a record holds no newline. */
  lemma {:induction false} AtomLineSingle(rec: AtomRecord)
    requires IsToken(rec.element) && IsToken(rec.x) && IsToken(rec.y) && IsToken(rec.z)
    ensures '\n' !in FormatAtomLine(rec)
  {
    assert IsWhitespace('\n');
    JoinWithExcludes(RecordTokens(rec), ' ', '\n');
  }

  /** The lines of a written text: the count line, the comment, the body
      lines and the empty piece after the final newline. */
  lemma {:induction false} FormattedLines(count: string, comment: string, body: seq<string>)
    requires '\n' !in count && '\n' !in comment
    requires forall k :: 0 <= k < |body| ==> '\n' !in body[k]
    ensures Lines(count + "\n" + comment + "\n" + Terminated(body)) == [count, comment] + body + [""]
  {
    var t := Terminated(body);
    var lines := HeaderLines(count, comment, t);
    TerminatedLines(body);
    assert Lines(t) == body + [""];
    assert lines == [count, comment] + (body + [""]);
    assert [count, comment] + (body + [""]) == [count, comment] + body + [""];
    assert lines == Lines(count + "\n" + comment + "\n" + t);
  }

  /** A written count line declares that count. */
  lemma {:induction false} CountLine(n: int)
    ensures ParseInt(Trim(FormatInt(n))) == Some(n)
    ensures '\n' !in FormatInt(n)
  {
    FormatIntPlain(n);
    ParseIntFormatInt(n, "");
    assert FormatInt(n) + "" == FormatInt(n);
  }

  /** Round trip: a text written from writable records reads back as exactly
      their atoms, with ids 0, 1, ... in order. */
  lemma {:induction false} ParseFormatXYZ(comment: string, records: seq<AtomRecord>, parseFloat: FloatReader)
    requires '\n' !in comment
    requires forall k :: 0 <= k < |records| ==> Writable(records[k], parseFloat)
    ensures ParseXYZ(FormatXYZ(comment, records), parseFloat).isValid
    ensures var atoms := ParseXYZ(FormatXYZ(comment, records), parseFloat).atoms.value;
            && |atoms| == |records|
            && forall k :: 0 <= k < |records| ==> atoms[k] == RecordAtom(records[k], k, parseFloat)
  {
    var n := |records|;
    var atoms := seq(n, k requires 0 <= k < n => RecordAtom(records[k], k, parseFloat));
    var lines := WrittenLines(n, comment, records);
    forall i | FIRST_LINES <= i < n + FIRST_LINES ensures IsAtomLine(lines[i], parseFloat) {
      RecordLine(records[i - FIRST_LINES], i - FIRST_LINES, parseFloat);
    }
    assert WellFormed(lines, parseFloat);
    forall k | 0 <= k < n ensures atoms[k] == AtomOfLine(lines[k + FIRST_LINES], k, parseFloat) {
      RecordLine(records[k], k, parseFloat);
    }
    LinesAccepted(lines, parseFloat, atoms);
    assert ParseDetailed(FormatXYZ(comment, records), parseFloat) == Success(atoms);
  }

  /** The line written for a writable record is an atom line, and it
      describes the record's atom. */
  lemma {:induction false} RecordLine(rec: AtomRecord, id: int, parseFloat: FloatReader)
    requires Writable(rec, parseFloat)
    ensures IsAtomLine(FormatAtomLine(rec), parseFloat)
    ensures AtomOfLine(FormatAtomLine(rec), id, parseFloat) == RecordAtom(rec, id, parseFloat)
  {
    AtomLineTokens(rec);
  }

  /** The lines of a text with count line `n` written from records: the
      count, the comment, one line per record and a final empty piece. */
  lemma {:induction false} WrittenLines(n: int, comment: string, records: seq<AtomRecord>) returns (lines: seq<string>)
    requires '\n' !in comment
    requires forall k :: 0 <= k < |records| ==>
               IsToken(records[k].element) && IsToken(records[k].x) && IsToken(records[k].y) && IsToken(records[k].z)
    ensures lines == Lines(FormatInt(n) + "\n" + comment + "\n" + Terminated(AtomLines(records)))
    ensures |lines| == |records| + 3 && lines[|records| + 2] == ""
    ensures AtomCount(lines) == Some(n)
    ensures forall k :: 0 <= k < |records| ==> lines[k + FIRST_LINES] == FormatAtomLine(records[k])
  {
    var count := FormatInt(n);
    CountLine(n);
    lines := RecordLines(count, comment, records);
  }

  /** `WrittenLines` for any count line. */
  lemma {:induction false} RecordLines(count: string, comment: string, records: seq<AtomRecord>) returns (lines: seq<string>)
    requires '\n' !in count && '\n' !in comment
    requires forall k :: 0 <= k < |records| ==>
               IsToken(records[k].element) && IsToken(records[k].x) && IsToken(records[k].y) && IsToken(records[k].z)
    ensures lines == Lines(count + "\n" + comment + "\n" + Terminated(AtomLines(records)))
    ensures |lines| == |records| + 3 && lines[0] == count && lines[|records| + 2] == ""
    ensures forall k :: 0 <= k < |records| ==> lines[k + FIRST_LINES] == FormatAtomLine(records[k])
  {
    var body := AtomLines(records);
    lines := [count, comment] + body + [""];
    forall k | 0 <= k < |records| ensures lines[k + FIRST_LINES] == FormatAtomLine(records[k]) {
      assert lines[k + 2] == body[k];
    }
    forall k | 0 <= k < |body| ensures '\n' !in body[k] {
      AtomLineSingle(records[k]);
    }
    FormattedLines(count, comment, body);
  }

  /** A text declaring one atom more than it has lines for is rejected: the
      empty piece after the final newline is read as the missing atom line
      and has a single token. */
  lemma {:induction false} OneAtomShortInvalid(comment: string, records: seq<AtomRecord>, parseFloat: FloatReader)
    requires '\n' !in comment
    requires forall k :: 0 <= k < |records| ==>
               IsToken(records[k].element) && IsToken(records[k].x) && IsToken(records[k].y) && IsToken(records[k].z)
    ensures var text := FormatInt(|records| + 1) + "\n" + comment + "\n" + Terminated(AtomLines(records));
            ParseXYZ(text, parseFloat) == ParsedXYZResult(false, None)
  {
    var n := |records| + 1;
    var text := FormatInt(n) + "\n" + comment + "\n" + Terminated(AtomLines(records));
    var lines := WrittenLines(n, comment, records);
    assert SplitWs("") == [""];
    ShortLineInvalid(text, n + 1, parseFloat);
  }

  /** When every record is writable, the rejection names the empty last line
      as a malformed atom line. */
  lemma {:induction false} OneAtomShortError(comment: string, records: seq<AtomRecord>, parseFloat: FloatReader)
    requires '\n' !in comment
    requires forall k :: 0 <= k < |records| ==> Writable(records[k], parseFloat)
    ensures var text := FormatInt(|records| + 1) + "\n" + comment + "\n" + Terminated(AtomLines(records));
            ParseDetailed(text, parseFloat) == Failure(MalformedLine(|records| + FIRST_LINES))
  {
    var n := |records| + 1;
    var lines := WrittenLines(n, comment, records);
    forall j | FIRST_LINES <= j < n + 1 ensures IsAtomLine(lines[j], parseFloat) {
      RecordLine(records[j - FIRST_LINES], j - FIRST_LINES, parseFloat);
    }
    assert SplitWs(lines[n + 1]) == [""];
    ParseBodyShortLast(lines, FIRST_LINES, n + FIRST_LINES, parseFloat);
    assert ParseLinesDetailed(lines, parseFloat) == ParseBody(lines, FIRST_LINES, n + FIRST_LINES, parseFloat);
  }
}
