/**
 * The XYZ molecular-geometry parser `parseXYZ` (src/actions/parseXYZ.ts).
 *
 * An XYZ text is a line holding the atom count, a free-form comment line,
 * and then one line per atom: an element symbol and three coordinates,
 * separated by whitespace. The parser either accepts the text, giving one
 * `Atom` per body line in file order, or rejects it without any atoms.
 *
 * `parseFloat` is a parameter, a table from strings to numbers in which a
 * string outside the domain reads as NaN, so every property proved here
 * holds whatever number reader is plugged in; `JsNumbers.ParseFloat` is the
 * decimal-prefix reader JavaScript uses.
 */
module ParseXyz {
  import opened Wrappers
  import opened Strings
  import opened Tokens
  import opened JsNumbers

  /** The header lines before the first atom: the count and the comment. */
  const FIRST_LINES: nat := 2

  /** `three.Vector3`: a position in space. */
  datatype Vector3 = Vector3(x: Num, y: Num, z: Num)

  /** One atomic site: its zero-based order in the body, its element token
      and its position. */
  datatype Atom = Atom(id: int, element: string, position: Vector3)

  /** `ParsedXYZResult`: a validity flag and, when valid, the atom list. */
  datatype ParsedXYZResult = ParsedXYZResult(isValid: bool, atoms: Option<seq<Atom>>)

  /** Why a text is rejected. `parseXYZ` collapses all of these into
      `isValid: false`; `ParseDetailed` keeps them apart. Line numbers are
      zero-based indices into the `'\n'`-split text. */
  datatype ParseError =
    | MalformedCount                    // the first line has no leading integer
    | TruncatedBody                     // fewer than count + 2 lines
    | MalformedLine(line: nat)          // a body line with fewer than 4 tokens
    | NonNumericCoordinate(line: nat)   // a body line whose token 1, 2 or 3 is NaN

  /** A JavaScript `parseFloat`, as the table of what it makes of each
      string: a string outside the domain reads as NaN. */
  type FloatReader = imap<string, Num>

  /** `text.split('\n')`: at least one line, and no line holds a newline. */
  function Lines(text: string): (lines: seq<string>)
    ensures |lines| >= 1
    ensures forall k :: 0 <= k < |lines| ==> '\n' !in lines[k]
  {
    SplitOn(text, '\n')
  }

  /** The lines are the text cut at every newline: joined back with newlines
      they give the text, and there is one more line than there are
      newlines. */
  lemma {:induction false} LinesJoin(text: string)
    ensures JoinWith(Lines(text), '\n') == text
    ensures |Lines(text)| == Occurrences(text, '\n') + 1
  {
    JoinSplitOn(text, '\n');
    SplitOnCount(text, '\n');
  }

  /** `parseInt(lines[0].trim(), 10)`: the declared number of atoms. It is
      NaN exactly when the trimmed first line does not start with a digit,
      or with one sign and a digit. */
  function AtomCount(lines: seq<string>): (count: Option<int>)
    requires |lines| >= 1
    ensures count.None? <==> !StartsInteger(Trim(lines[0]))
  {
    var t := Trim(lines[0]);
    TrimStartUnchanged(t);
    ParseInt(t)
  }

  /** How many body lines a declared count asks for: none when it is
      negative, since the loop then runs zero times. */
  function BodyLength(count: int): (n: nat)
    ensures n >= count && (n == 0 || n == count)
  {
    if count > 0 then count else 0
  }

  /** One iteration of the loop: line `i` of the file, split on `/\s+/`,
      becomes the atom with id `i - FIRST_LINES`. */
  function ParseAtomLine(line: string, i: nat, parseFloat: FloatReader): (r: Result<Atom, ParseError>)
    ensures r.Success? ==> r.value.id == i - FIRST_LINES
    ensures r.Failure? ==> r.error == MalformedLine(i) || r.error == NonNumericCoordinate(i)
  {
    var tokens := SplitWs(line);
    if |tokens| < 4 then Failure(MalformedLine(i))
    else
      if tokens[1] !in parseFloat || tokens[2] !in parseFloat || tokens[3] !in parseFloat then
        Failure(NonNumericCoordinate(i))
      else
        var position := Vector3(parseFloat[tokens[1]], parseFloat[tokens[2]], parseFloat[tokens[3]]);
        Success(Atom(i - FIRST_LINES, tokens[0], position))
  }

  /** The loop over lines `i .. end - 1`, stopping at the first bad line. */
  function ParseBody(lines: seq<string>, i: nat, end: int, parseFloat: FloatReader): (r: Result<seq<Atom>, ParseError>)
    requires end <= |lines|
    ensures r.Success? ==> |r.value| == BodyLength(end - i)
    ensures r.Success? ==> forall k :: 0 <= k < |r.value| ==> r.value[k].id == i + k - FIRST_LINES
    ensures r.Failure? ==> (r.error.MalformedLine? || r.error.NonNumericCoordinate?)
                           && i <= r.error.line < end
    decreases end - i
  {
    if i >= end then Success([])
    else
      match ParseAtomLine(lines[i], i, parseFloat)
      case Failure(e) => Failure(e)
      case Success(atom) =>
        match ParseBody(lines, i + 1, end, parseFloat)
        case Failure(e) => Failure(e)
        case Success(rest) => Success([atom] + rest)
  }

  /** The parser on the `'\n'`-split text, with the reason for a rejection. */
  function ParseLinesDetailed(lines: seq<string>, parseFloat: FloatReader): (r: Result<seq<Atom>, ParseError>)
    requires |lines| >= 1
    ensures r.Success? ==> AtomCount(lines).Some?
                           && |r.value| == BodyLength(AtomCount(lines).value)
                           && forall k :: 0 <= k < |r.value| ==> r.value[k].id == k
  {
    var count := AtomCount(lines);
    if count.None? then Failure(MalformedCount)
    else if |lines| < count.value + FIRST_LINES then Failure(TruncatedBody)
    else ParseBody(lines, FIRST_LINES, count.value + FIRST_LINES, parseFloat)
  }

  /** The parser with the reason for a rejection: a malformed count exactly
      when the first line has no leading integer, and otherwise an accepted
      text yields one atom per declared atom. */
  function ParseDetailed(text: string, parseFloat: FloatReader): (r: Result<seq<Atom>, ParseError>)
    ensures r.Failure? ==> (r.error == MalformedCount <==> AtomCount(Lines(text)).None?)
    ensures r.Success? ==> AtomCount(Lines(text)).Some?
                           && |r.value| == BodyLength(AtomCount(Lines(text)).value)
  {
    ParseLinesDetailed(Lines(text), parseFloat)
  }

  /** `parseXYZ(text)`: valid exactly when the atom list is present, and then
      it holds one atom per declared atom, numbered from 0 in file order. */
  function ParseXYZ(text: string, parseFloat: FloatReader): (r: ParsedXYZResult)
    ensures r.isValid <==> r.atoms.Some?
    ensures r.isValid ==> var count := AtomCount(Lines(text));
                          && count.Some?
                          && |r.atoms.value| == BodyLength(count.value)
                          && forall k :: 0 <= k < |r.atoms.value| ==> r.atoms.value[k].id == k
  {
    match ParseDetailed(text, parseFloat)
    case Success(atoms) => ParsedXYZResult(true, Some(atoms))
    case Failure(_) => ParsedXYZResult(false, None)
  }

  // Reference description of an accepted text, stated per line rather than
  // as a loop.

  /** A body line that makes an atom: at least four tokens, and tokens 1-3
      are not NaN. */
  predicate IsAtomLine(line: string, parseFloat: FloatReader) {
    var tokens := SplitWs(line);
    && |tokens| >= 4
    && tokens[1] in parseFloat
    && tokens[2] in parseFloat
    && tokens[3] in parseFloat
  }

  /** The atom an atom line describes: token 0 verbatim as the element, and
      tokens 1-3 as the position. */
  function AtomOfLine(line: string, id: int, parseFloat: FloatReader): Atom
    requires IsAtomLine(line, parseFloat)
  {
    var tokens := SplitWs(line);
    Atom(id, tokens[0], Vector3(parseFloat[tokens[1]], parseFloat[tokens[2]], parseFloat[tokens[3]]))
  }

  /** Atom k comes from atom line k + 2 and has id k. */
  predicate DescribesAtom(lines: seq<string>, atoms: seq<Atom>, k: nat, parseFloat: FloatReader)
    requires k < |atoms|
  {
    && k + FIRST_LINES < |lines|
    && IsAtomLine(lines[k + FIRST_LINES], parseFloat)
    && atoms[k] == AtomOfLine(lines[k + FIRST_LINES], k, parseFloat)
  }

  /** `atoms` are, in order, the atoms of lines 2, 3, .... */
  predicate DescribesBody(lines: seq<string>, atoms: seq<Atom>, parseFloat: FloatReader) {
    forall k: nat :: k < |atoms| ==> DescribesAtom(lines, atoms, k, parseFloat)
  }

  /** A well-formed XYZ text: the first line has a leading integer n, there
      are at least n + 2 lines, and lines 2 .. n + 1 are atom lines. */
  predicate WellFormed(lines: seq<string>, parseFloat: FloatReader)
    requires |lines| >= 1
  {
    var count := AtomCount(lines);
    && count.Some?
    && |lines| >= count.value + FIRST_LINES
    && forall i :: FIRST_LINES <= i < count.value + FIRST_LINES ==> IsAtomLine(lines[i], parseFloat)
  }

  /** One loop iteration succeeds exactly on an atom line, with its atom. */
  lemma {:induction false} ParseAtomLineSpec(line: string, i: nat, parseFloat: FloatReader)
    ensures ParseAtomLine(line, i, parseFloat).Success? <==> IsAtomLine(line, parseFloat)
    ensures ParseAtomLine(line, i, parseFloat).Success? ==>
              ParseAtomLine(line, i, parseFloat).value == AtomOfLine(line, i - FIRST_LINES, parseFloat)
    ensures ParseAtomLine(line, i, parseFloat) == Failure(MalformedLine(i)) <==> |SplitWs(line)| < 4
  {
  }

  /** The loop accepts exactly when every line in range is an atom line, and
      then yields their atoms in order. */
  lemma {:induction false} ParseBodySpec(lines: seq<string>, i: nat, end: int, parseFloat: FloatReader)
    requires end <= |lines|
    ensures ParseBody(lines, i, end, parseFloat).Success? <==>
              forall j :: i <= j < end ==> IsAtomLine(lines[j], parseFloat)
    ensures ParseBody(lines, i, end, parseFloat).Success? ==>
              forall k :: 0 <= k < BodyLength(end - i) ==>
                ParseBody(lines, i, end, parseFloat).value[k]
                  == AtomOfLine(lines[i + k], i + k - FIRST_LINES, parseFloat)
  {
    if ParseBody(lines, i, end, parseFloat).Success? {
      ParseBodyAccepts(lines, i, end, parseFloat);
    }
    if forall j :: i <= j < end ==> IsAtomLine(lines[j], parseFloat) {
      ParseBodyAtoms(lines, i, end, parseFloat);
    }
  }

  /** The loop accepts only when every line in range is an atom line. */
  lemma {:induction false} ParseBodyAccepts(lines: seq<string>, i: nat, end: int, parseFloat: FloatReader)
    requires end <= |lines|
    requires ParseBody(lines, i, end, parseFloat).Success?
    ensures forall j :: i <= j < end ==> IsAtomLine(lines[j], parseFloat)
    decreases end - i
  {
    if i < end {
      ParseAtomLineSpec(lines[i], i, parseFloat);
      ParseBodyAccepts(lines, i + 1, end, parseFloat);
    }
  }

  /** A loop over atom lines accepts, yielding their atoms in order. */
  lemma {:induction false} ParseBodyAtoms(lines: seq<string>, i: nat, end: int, parseFloat: FloatReader)
    requires end <= |lines|
    requires forall j :: i <= j < end ==> IsAtomLine(lines[j], parseFloat)
    ensures ParseBody(lines, i, end, parseFloat).Success?
    ensures forall k :: 0 <= k < BodyLength(end - i) ==>
              ParseBody(lines, i, end, parseFloat).value[k]
                == AtomOfLine(lines[i + k], i + k - FIRST_LINES, parseFloat)
    decreases end - i
  {
    if i < end {
      ParseAtomLineSpec(lines[i], i, parseFloat);
      ParseBodyAtoms(lines, i + 1, end, parseFloat);
      var atom := AtomOfLine(lines[i], i - FIRST_LINES, parseFloat);
      var rest := ParseBody(lines, i + 1, end, parseFloat).value;
      assert ParseAtomLine(lines[i], i, parseFloat) == Success(atom);
      assert ParseBody(lines, i, end, parseFloat) == Success([atom] + rest);
      var r := [atom] + rest;
      forall k | 0 <= k < BodyLength(end - i)
        ensures r[k] == AtomOfLine(lines[i + k], i + k - FIRST_LINES, parseFloat)
      {
        if k == 0 {
          assert r[0] == AtomOfLine(lines[i], i - FIRST_LINES, parseFloat);
        } else {
          var k' := k - 1;
          assert (i + 1) + k' == i + k;
          assert rest[k'] == AtomOfLine(lines[(i + 1) + k'], (i + 1) + k' - FIRST_LINES, parseFloat);
          assert r[k] == rest[k'];
        }
      }
    }
  }

  /** Fail-fast: a rejection names the first line in range that is not an
      atom line, and says whether it had too few tokens. */
  lemma {:induction false} ParseBodyFirstFailure(lines: seq<string>, i: nat, end: int, parseFloat: FloatReader)
    requires end <= |lines|
    requires ParseBody(lines, i, end, parseFloat).Failure?
    ensures var e := ParseBody(lines, i, end, parseFloat).error;
            && i <= e.line < end
            && !IsAtomLine(lines[e.line], parseFloat)
            && (e.MalformedLine? <==> |SplitWs(lines[e.line])| < 4)
            && forall j :: i <= j < e.line ==> IsAtomLine(lines[j], parseFloat)
    decreases end - i
  {
    ParseAtomLineSpec(lines[i], i, parseFloat);
    if ParseAtomLine(lines[i], i, parseFloat).Success? {
      ParseBodyFirstFailure(lines, i + 1, end, parseFloat);
    }
  }

  /** A loop whose lines are atom lines up to a last one with too few tokens
      fails exactly at that last line. */
  lemma {:induction false} ParseBodyShortLast(lines: seq<string>, i: nat, end: int, parseFloat: FloatReader)
    requires i < end <= |lines|
    requires forall j :: i <= j < end - 1 ==> IsAtomLine(lines[j], parseFloat)
    requires |SplitWs(lines[end - 1])| < 4
    ensures ParseBody(lines, i, end, parseFloat) == Failure(MalformedLine(end - 1))
    decreases end - i
  {
    ParseAtomLineSpec(lines[i], i, parseFloat);
    if i < end - 1 {
      ParseBodyShortLast(lines, i + 1, end, parseFloat);
    }
  }

  /** Replacing lines by ones the loop reads the same way leaves the loop's
      outcome unchanged. */
  lemma {:induction false} ParseBodyCongruence(lines1: seq<string>, lines2: seq<string>, i: nat, end: int,
                                               parseFloat: FloatReader)
    requires end <= |lines1| && end <= |lines2|
    requires forall j :: i <= j < end ==>
               ParseAtomLine(lines1[j], j, parseFloat) == ParseAtomLine(lines2[j], j, parseFloat)
    ensures ParseBody(lines1, i, end, parseFloat) == ParseBody(lines2, i, end, parseFloat)
    decreases end - i
  {
    if i < end && ParseAtomLine(lines1[i], i, parseFloat).Success? {
      ParseBodyCongruence(lines1, lines2, i + 1, end, parseFloat);
    }
  }
}
