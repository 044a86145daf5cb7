# XYZ parser model

A Dafny model of `parseXYZ`, the XYZ molecular-geometry reader of the
VsevolodX viewer (`src/actions/parseXYZ.ts`), with proofs of what it accepts
and what it produces.

An XYZ text is a line holding the number of atoms, a free-form comment line,
and one line per atom: an element symbol and three coordinates separated by
whitespace. `parseXYZ` splits the text at `'\n'` and reads the trimmed first
line with `parseInt`. It rejects the text when that gives NaN or when there
are fewer than count + 2 lines. It then walks lines 2 .. count + 1. Each line
is split on `/\s+/`; the parser rejects it when it has fewer than four tokens
or when `parseFloat` gives NaN for token 1, 2 or 3. Otherwise it emits
`{ id: i - 2, element: token 0, position: (x, y, z) }`. The result is
`{ isValid: false }` or `{ isValid: true, atoms }`.

Modules:

- `Wrappers` (`wrappers.dfy`): `Option` and `Result`.
- `Strings` (`strings.dfy`): the ECMAScript whitespace class, `trim`, and
  `split` at one character, with the split/join round trip.
- `Tokens` (`tokens.dfy`): `split(/\s+/)`, which keeps an empty first token
  when the line starts with whitespace and an empty last token when it ends
  with it.
- `JsNumbers` (`numbers.dfy`): `parseInt(s, 10)` and `parseFloat(s)` as
  prefix readers.
  - Values are exact: unbounded integers and reals.
  - `Infinity` is a number and NaN is `None`.
  - A decimal writer `FormatInt` is included as the partner of `parseInt`.
- `ParseXyz` (`parse_xyz.dfy`): the parser itself.
  - The datatypes `Vector3`, `Atom` and `ParsedXYZResult` mirror the
    records of `parseXYZ.ts` (lines 4-7 and 32-36). The `ensures` of
    `ParseXYZ` ties `isValid` to the presence of `atoms`, and `ValidAtoms`
    states each atom's `id`, `element` and `position`.
  - `ParseDetailed` keeps the reason for a rejection, which the code
    collapses into `isValid: false`.
  - The predicates `IsAtomLine`, `AtomOfLine`, `WellFormed` and
    `DescribesBody` give a per-line reference description of an accepted
    text.
- `XyzProperties` (`xyz_properties.dfy`): the parser against that reference
  description, its rejection cases, and the parts of a text it never looks
  at.
- `XyzFormat` (`xyz_format.dfy`): an XYZ writer, with the round trip
  "parse(write(records)) = the records' atoms".
- `XyzExamples` (`xyz_examples.dfy`): concrete `parseInt` and `parseFloat`
  readings, and the parser with JavaScript's `parseFloat` plugged in.

The number reader `parseFloat` is a parameter of the parser: a
`FloatReader` is an `imap<string, Num>`, and a string outside its domain
reads as NaN. So every structural property holds whatever reader is used.
`XyzExamples.JsFloat` is the reader built from `JsNumbers.ParseFloat`.

Behaviour of the code that is easy to miss, all proved below:

- A final newline adds an empty last line. That line counts toward the
  `count + 2` length check, and it is then rejected as an atom line with one
  token.
- A negative count passes the length check, the loop runs zero times, and the
  text is accepted with no atoms.
- `parseInt` reads a prefix, so `"3abc"` declares 3 atoms.
- `parseFloat` reads a prefix as well, so `"1.5x"` is 1.5. `Infinity` is not
  NaN, so an infinite coordinate is accepted.
- A line that ends with whitespace gets an empty last token. So `"H 0 0 "`
  has four tokens and passes the four-token check; it is rejected only
  because `parseFloat("")` is NaN.
- An indented atom line has an empty token 0. Its element becomes `""`, and
  the element symbol is read as the x coordinate.

## Model

| member | source | states |
|---|---|---|
| ParseXyz.ParseXYZ | VsevolodX/src/actions/parseXYZ.ts:9-40 | the result is valid exactly when it carries an atom list; then the first line has a leading integer n, there are max(n, 0) atoms, and atom k has id k |
| ParseXyz.Lines | VsevolodX/src/actions/parseXYZ.ts:11 | `text.split('\n')` gives at least one line and no line holds a newline |
| ParseXyz.LinesJoin | VsevolodX/src/actions/parseXYZ.ts:11 | the lines joined with newlines give back the text, and there is one line more than there are newlines |
| ParseXyz.AtomCount | VsevolodX/src/actions/parseXYZ.ts:12 | the count is NaN exactly when the trimmed first line does not start with a digit or with a sign and a digit |
| ParseXyz.BodyLength | VsevolodX/src/actions/parseXYZ.ts:19 | the number of loop iterations is the count when positive and 0 otherwise |
| ParseXyz.ParseDetailed | VsevolodX/src/actions/parseXYZ.ts:9-40 | a "malformed count" rejection happens exactly when the count is NaN; an accepted text yields one atom per loop iteration |
| ParseXyz.ParseLinesDetailed | VsevolodX/src/actions/parseXYZ.ts:11-39 | an accepted line list has a leading-integer first line and yields max(count, 0) atoms numbered 0, 1, ... |
| ParseXyz.ParseAtomLine | VsevolodX/src/actions/parseXYZ.ts:20-36 | one loop iteration on line i yields an atom with id i - 2, or fails naming line i as short or as holding a NaN coordinate |
| ParseXyz.ParseAtomLineSpec | VsevolodX/src/actions/parseXYZ.ts:20-36 | an iteration succeeds exactly on an atom line (at least four tokens, tokens 1-3 not NaN), yields that line's atom, and reports a short line exactly when there are fewer than four tokens |
| ParseXyz.ParseBody | VsevolodX/src/actions/parseXYZ.ts:19-37 | the loop over lines i .. end - 1 yields one atom per line with ids i - 2, i - 1, ..., or fails at a line inside the range |
| ParseXyz.ParseBodySpec | VsevolodX/src/actions/parseXYZ.ts:19-37 | the loop accepts exactly when every line in range is an atom line, and then atom k is the atom of line i + k |
| ParseXyz.ParseBodyAccepts | VsevolodX/src/actions/parseXYZ.ts:19-30 | an accepting loop saw only atom lines |
| ParseXyz.ParseBodyAtoms | VsevolodX/src/actions/parseXYZ.ts:19-37 | a loop over atom lines accepts and yields their atoms in line order |
| ParseXyz.ParseBodyFirstFailure | VsevolodX/src/actions/parseXYZ.ts:19-30 | a rejection names the first line in range that is not an atom line, and says "short line" exactly when it has fewer than four tokens |
| ParseXyz.ParseBodyShortLast | VsevolodX/src/actions/parseXYZ.ts:19-23 | atom lines followed by a last line of fewer than four tokens fail exactly at that last line |
| ParseXyz.ParseBodyCongruence | VsevolodX/src/actions/parseXYZ.ts:19-37 | lines that each iteration reads alike give the loop the same outcome |
| XyzProperties.ValidIffWellFormed | VsevolodX/src/actions/parseXYZ.ts:9-40 | a text is accepted if and only if it is well formed: leading integer n on line 0, at least n + 2 lines, lines 2 .. n + 1 atom lines |
| XyzProperties.LinesValidIffWellFormed | VsevolodX/src/actions/parseXYZ.ts:12-39 | the same if-and-only-if on the split lines |
| XyzProperties.ValidAtoms | VsevolodX/src/actions/parseXYZ.ts:19-39 | an accepted text has max(n, 0) atoms, and atom k is the atom of line k + 2: id k, token 0 verbatim as element, tokens 1-3 read as the position |
| XyzProperties.BodyAtom | VsevolodX/src/actions/parseXYZ.ts:32-36 | atom k of an accepting loop comes from atom line k + 2 |
| XyzProperties.WellFormedAccepted | VsevolodX/src/actions/parseXYZ.ts:9-40 | a well-formed text is accepted with exactly the atoms its body lines describe |
| XyzProperties.LinesAccepted | VsevolodX/src/actions/parseXYZ.ts:12-39 | the same on the split lines |
| XyzProperties.MalformedCountInvalid | VsevolodX/src/actions/parseXYZ.ts:12-16 | no leading integer on the trimmed first line: invalid, no atoms, reason "malformed count" |
| XyzProperties.TruncatedBodyInvalid | VsevolodX/src/actions/parseXYZ.ts:15-16 | fewer than count + 2 lines: invalid, no atoms, reason "truncated body" |
| XyzProperties.ZeroCountNeedsNewline | VsevolodX/src/actions/parseXYZ.ts:11-17 | with a count of 0 the text is accepted, with no atoms, if and only if it holds a newline |
| XyzProperties.NegativeCountValid | VsevolodX/src/actions/parseXYZ.ts:15-19 | a negative count is accepted with an empty atom list |
| XyzProperties.ShortLineInvalid | VsevolodX/src/actions/parseXYZ.ts:19-23 | a body line with fewer than four tokens, such as an empty line, makes the whole text invalid with no atoms |
| XyzProperties.NaNCoordinateInvalid | VsevolodX/src/actions/parseXYZ.ts:25-30 | a body line whose token 1, 2 or 3 is NaN makes the whole text invalid with no atoms |
| XyzProperties.NaNTokenNotAtomLine | VsevolodX/src/actions/parseXYZ.ts:25-30 | a line with a NaN among tokens 1-3 is not an atom line |
| XyzProperties.NonAtomLineRejects | VsevolodX/src/actions/parseXYZ.ts:19-30 | any non-atom line among lines 2 .. count + 1 rejects the text |
| XyzProperties.FailFast | VsevolodX/src/actions/parseXYZ.ts:15-30 | each rejection reason holds exactly when its cause does; a rejected body line is the first non-atom line of the body |
| XyzProperties.LinesFailFast | VsevolodX/src/actions/parseXYZ.ts:15-30 | the same on the split lines |
| XyzProperties.SameReadingSameResult | VsevolodX/src/actions/parseXYZ.ts:11-37 | line lists with the same first line and length, whose body lines are read alike, give the same result; line 1 is never read |
| XyzProperties.ReplaceLineSameReading | VsevolodX/src/actions/parseXYZ.ts:11-37 | replacing any line after the first by one the loop reads alike leaves the result unchanged |
| XyzProperties.CommentLineIgnored | VsevolodX/src/actions/parseXYZ.ts:11-19 | the comment line has no effect on the result |
| XyzProperties.HeaderLines | VsevolodX/src/actions/parseXYZ.ts:11 | a text of a first line, a comment line and a rest splits into those two lines followed by the lines of the rest |
| XyzProperties.LinesCons | VsevolodX/src/actions/parseXYZ.ts:11 | a newline-free first line is the first piece of the split, followed by the pieces of the rest |
| XyzProperties.TrailingLinesIgnored | VsevolodX/src/actions/parseXYZ.ts:15-19 | appending lines to a text that already has count + 2 lines does not change the result |
| XyzProperties.AppendedLinesIgnored | VsevolodX/src/actions/parseXYZ.ts:15-19 | the same on the split lines |
| XyzProperties.ExtraTokensIgnored | VsevolodX/src/actions/parseXYZ.ts:20-27 | tokens past index 3 on a body line do not affect the result |
| XyzProperties.IndentedLineShifted | VsevolodX/src/actions/parseXYZ.ts:20-25 | an indented line splits into an empty token followed by the tokens of the unindented line, so an atom read from it has the empty element and takes its x coordinate from the element symbol |
| XyzProperties.CollapseLineWhitespace | VsevolodX/src/actions/parseXYZ.ts:20 | collapsing every whitespace run of a line to one space does not change the result |
| Strings.Trim | VsevolodX/src/actions/parseXYZ.ts:12 | the trimmed line neither starts nor ends with whitespace |
| Strings.TrimSlice | VsevolodX/src/actions/parseXYZ.ts:12 | `trim` only removes whitespace: its result is a slice with whitespace alone before and after it |
| Strings.TrimStartSlice | VsevolodX/src/actions/parseXYZ.ts:12 | the leading part `trim` removes is whitespace |
| Strings.TrimEndSlice | VsevolodX/src/actions/parseXYZ.ts:12 | the trailing part `trim` removes is whitespace |
| Strings.TrimUnchanged | VsevolodX/src/actions/parseXYZ.ts:12 | a string without whitespace at either end is its own `trim` |
| Strings.SplitOn | VsevolodX/src/actions/parseXYZ.ts:11 | `split('\n')` yields at least one piece and no piece holds a newline |
| Strings.JoinSplitOn | VsevolodX/src/actions/parseXYZ.ts:11 | joining the pieces with the separator gives back the text |
| Strings.SplitJoinOn | VsevolodX/src/actions/parseXYZ.ts:11 | splitting a join of separator-free pieces gives back the pieces |
| Strings.SplitOnConcat | VsevolodX/src/actions/parseXYZ.ts:11 | the pieces of a + sep + b are the pieces of a followed by those of b |
| Strings.SplitOnNoSeparator | VsevolodX/src/actions/parseXYZ.ts:11 | a text without the separator is one piece |
| Strings.SplitOnCount | VsevolodX/src/actions/parseXYZ.ts:11 | there is one piece more than there are separators |
| Strings.TrailingSeparatorAddsEmptyPiece | VsevolodX/src/actions/parseXYZ.ts:11 | a final newline adds exactly one empty line at the end |
| Strings.SinglePieceIffNoSeparator | VsevolodX/src/actions/parseXYZ.ts:11 | a text is a single line if and only if it holds no newline |
| Strings.OccurrencesZero | VsevolodX/src/actions/parseXYZ.ts:11 | the separator count is zero exactly when the separator is absent |
| Tokens.SplitWs | VsevolodX/src/actions/parseXYZ.ts:20 | `split(/\s+/)` yields whitespace-free tokens, only the first and last possibly empty; the first is empty exactly when the line is empty or starts with whitespace |
| Tokens.SplitWsLast | VsevolodX/src/actions/parseXYZ.ts:20 | the last token is empty exactly when the line is empty or ends with whitespace |
| Tokens.JoinSplitWs | VsevolodX/src/actions/parseXYZ.ts:20 | joining the tokens with single spaces gives the line with each whitespace run collapsed to one space |
| Tokens.SplitJoinWs | VsevolodX/src/actions/parseXYZ.ts:20 | splitting a single-space join of well-formed tokens gives back the tokens |
| Tokens.SplitWsWord | VsevolodX/src/actions/parseXYZ.ts:20 | a whitespace-free string is one token |
| Tokens.SplitWsCollapse | VsevolodX/src/actions/parseXYZ.ts:20 | collapsing whitespace runs does not change the tokens |
| JsNumbers.SplitSign | VsevolodX/src/actions/parseXYZ.ts:12 | the value is negative exactly when the text starts with `-`; one leading `+` or `-` is removed and nothing else, and a text with no sign is kept whole |
| JsNumbers.ParseIntPlusNumeral | VsevolodX/src/actions/parseXYZ.ts:12 | `parseInt` reads `+` followed by a digit string as that string's value, whatever non-digit text follows |
| JsNumbers.LeadingDigits | VsevolodX/src/actions/parseXYZ.ts:12 | the longest all-digit prefix: a prefix, all digits, and followed by a non-digit or the end |
| JsNumbers.ParseInt | VsevolodX/src/actions/parseXYZ.ts:12 | `parseInt` is NaN exactly when, after leading whitespace and at most one sign, no digit follows |
| JsNumbers.LeadingDigitsAppend | VsevolodX/src/actions/parseXYZ.ts:12 | a digit run followed by a non-digit is read up to the non-digit |
| JsNumbers.NumeralSign | VsevolodX/src/actions/parseXYZ.ts:12 | a signed numeral has no leading whitespace, and its sign is split off as written |
| JsNumbers.ParseIntNumeral | VsevolodX/src/actions/parseXYZ.ts:12 | `parseInt` reads a signed digit string as its value, whatever non-digit text follows |
| JsNumbers.ParseIntFormatInt | VsevolodX/src/actions/parseXYZ.ts:12 | `parseInt` reads back every integer written in decimal, whatever non-digit text follows |
| JsNumbers.FormatNat | VsevolodX/src/actions/parseXYZ.ts:12 | the writer partner of `parseInt`, with no counterpart in the source: the decimal numeral written for n is a non-empty digit string whose value is n, with no leading zero unless n is 0 |
| JsNumbers.NumeralPlain | VsevolodX/src/actions/parseXYZ.ts:11-12 | a signed numeral is unchanged by `trim` and holds no newline |
| JsNumbers.FormatIntPlain | VsevolodX/src/actions/parseXYZ.ts:11-12 | a written count line is unchanged by `trim` and holds no newline |
| JsNumbers.UnsignedDecimal | VsevolodX/src/actions/parseXYZ.ts:25-27 | an unsigned decimal literal is read exactly when the text starts with a digit or with a point followed by a digit |
| JsNumbers.ParseFloat | VsevolodX/src/actions/parseXYZ.ts:25-28 | `parseFloat` is NaN exactly when, after leading whitespace and at most one sign, neither `Infinity`, a digit nor a point and a digit follows |
| JsNumbers.UnsignedDecimalOfDigits | VsevolodX/src/actions/parseXYZ.ts:25-27 | a digit string followed by no digit, point or exponent mark reads as its integer value |
| JsNumbers.DigitNotInfinity | VsevolodX/src/actions/parseXYZ.ts:25-27 | text starting with a digit does not start with `Infinity` |
| JsNumbers.ParseFloatDecimal | VsevolodX/src/actions/parseXYZ.ts:25-27 | after whitespace and sign, a finite decimal literal is read and then signed |
| JsNumbers.ParseFloatNumeral | VsevolodX/src/actions/parseXYZ.ts:25-27 | `parseFloat` reads a signed digit string as its integer value, whatever non-numeric text follows |
| JsNumbers.ParseFloatFormatInt | VsevolodX/src/actions/parseXYZ.ts:25-27 | `parseFloat` reads back every integer written in decimal |
| XyzFormat.ParseFormatXYZ | VsevolodX/src/actions/parseXYZ.ts:9-40 | round trip: a text written from writable records is accepted with exactly their atoms, ids 0, 1, ... in order |
| XyzFormat.TerminatedLines | VsevolodX/src/actions/parseXYZ.ts:11 | newline-terminated lines split back into the lines and one empty last line |
| XyzFormat.AtomLineTokens | VsevolodX/src/actions/parseXYZ.ts:20 | a written atom line splits into the record's four tokens |
| XyzFormat.AtomLineSingle | VsevolodX/src/actions/parseXYZ.ts:11 | the writer partner of `split('\n')`, with no counterpart in the source: a written atom line holds no newline, so the split keeps it as one line |
| XyzFormat.FormattedLines | VsevolodX/src/actions/parseXYZ.ts:11 | a written text splits into the count line, the comment, the body lines and one empty line |
| XyzFormat.CountLine | VsevolodX/src/actions/parseXYZ.ts:12 | a written count line is read back as that count |
| XyzFormat.RecordLine | VsevolodX/src/actions/parseXYZ.ts:20-36 | a written line of a writable record is an atom line describing the record's atom |
| XyzFormat.WrittenLines | VsevolodX/src/actions/parseXYZ.ts:11-12 | the lines of a written text, with its count line read as the count |
| XyzFormat.RecordLines | VsevolodX/src/actions/parseXYZ.ts:11 | the lines of a written text for any count line |
| XyzFormat.OneAtomShortInvalid | VsevolodX/src/actions/parseXYZ.ts:15-23 | a newline-terminated text declaring one atom more than it holds passes the length check and is rejected |
| XyzFormat.OneAtomShortError | VsevolodX/src/actions/parseXYZ.ts:19-23 | the rejection names the empty last line as a short line |
| XyzExamples.CountWithTrailingText | VsevolodX/src/actions/parseXYZ.ts:12 | `parseInt("3abc")` is 3 |
| XyzExamples.CountWithPlusSign | VsevolodX/src/actions/parseXYZ.ts:12 | `parseInt("+5")` is 5 |
| XyzExamples.CountWithSpaceAndSign | VsevolodX/src/actions/parseXYZ.ts:12 | `parseInt(" -12px")` is -12 |
| XyzExamples.NonNumericCount | VsevolodX/src/actions/parseXYZ.ts:12-16 | a text whose first line is `abc` is invalid with no atoms |
| XyzExamples.FloatWithTrailingText | VsevolodX/src/actions/parseXYZ.ts:25 | `parseFloat("1.5x")` is 1.5 |
| XyzExamples.FloatWithExponent | VsevolodX/src/actions/parseXYZ.ts:25 | `parseFloat("-.25e1")` is -2.5 |
| XyzExamples.FloatWithDanglingExponent | VsevolodX/src/actions/parseXYZ.ts:25 | `parseFloat("2e")` is 2 |
| XyzExamples.FloatInfinity | VsevolodX/src/actions/parseXYZ.ts:25-28 | `parseFloat("Infinity")` is not NaN |
| XyzExamples.InfiniteCoordinateAccepted | VsevolodX/src/actions/parseXYZ.ts:25-39 | with JavaScript's `parseFloat`, a one-atom text with the coordinates `Infinity Infinity Infinity` is accepted, and its atom has the written element and the position (+Infinity, +Infinity, +Infinity) |
| XyzExamples.FloatNegativeInfinity | VsevolodX/src/actions/parseXYZ.ts:25-28 | `parseFloat("-Infinityx")` is minus infinity |
| XyzExamples.FloatNaN | VsevolodX/src/actions/parseXYZ.ts:25-28 | `parseFloat("x")` is NaN |
| XyzExamples.FloatPointWithoutDigits | VsevolodX/src/actions/parseXYZ.ts:25-28 | `parseFloat(".e1")` is NaN |
| XyzExamples.TrailingSpaceNaNCoordinate | VsevolodX/src/actions/parseXYZ.ts:20-30 | `"H 0 0 "` splits into `H`, `0`, `0` and an empty token, so it passes the four-token check and is rejected as a NaN coordinate, not as a short line |
| XyzExamples.NoAtoms | VsevolodX/src/actions/parseXYZ.ts:9-40 | with JavaScript's `parseFloat`, a written text with no atoms is accepted with an empty list |

## Left out

- `src/context/SourceContext.tsx` and `src/views/settingsEditor/SettingsEditor.tsx` are not part of this model. They are React state, `localStorage`, `FileReader` and `fetch` glue with no parsing logic.
- Binary64 rounding: `parseFloat` is read exactly as a real, and overflow to infinity from a huge literal is not modelled. Only "NaN or not" decides validity, and the exact value is what the literal denotes.
- `parseInt` above 2^53: the count is an unbounded integer. JavaScript loses precision there, but no text has that many lines, so the length check decides the same way.
- `three.Vector3` is a plain triple of `Num`; its methods are not modelled.
- Element-symbol validation: the code leaves it as a TODO, and token 0 is kept verbatim.
- Strings are sequences of code points. The code works on UTF-16 code units; surrogate pairs are not whitespace, digits or newlines in either view, so splitting and trimming agree.
- The loop's side effect `newAtoms.push` is modelled by building the list functionally. The early `return { isValid: false }` is a `Failure` that stops the recursion.
- `XyzFormat` is not part of the parser. It is a writer that the round-trip property is stated against.
- The reading that "coordinates must be finite" is not what the code does: `isNaN` rejects NaN only, so `Infinity` coordinates are accepted, and the model follows the code.
