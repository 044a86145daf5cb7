/**
 * Concrete behaviour of JavaScript's `parseInt` and `parseFloat` on the
 * kinds of tokens an XYZ file holds, and the parser with `parseFloat`
 * plugged in.
 */
module XyzExamples {
  import opened Wrappers
  import opened Strings
  import opened Tokens
  import opened JsNumbers
  import opened ParseXyz
  import opened XyzProperties
  import opened XyzFormat

  /** JavaScript's `parseFloat` as a reader: defined exactly on the strings
      it does not read as NaN. */
  ghost const JsFloat: FloatReader := imap s | ParseFloat(s).Some? :: ParseFloat(s).value

  /** The reader gives what `parseFloat` gives. */
  lemma {:induction false} JsFloatReads(s: string)
    ensures s in JsFloat <==> ParseFloat(s).Some?
    ensures s in JsFloat ==> JsFloat[s] == ParseFloat(s).value
  {
  }

  /** `parseInt` stops at the first non-digit: `"3abc"` declares 3 atoms. */
  lemma {:induction false} CountWithTrailingText()
    ensures ParseInt("3abc") == Some(3)
  {
    ParseIntFormatInt(3, "abc");
    assert FormatInt(3) == "3";
    assert "3" + "abc" == "3abc";
  }

  /** `parseInt` skips leading whitespace and reads one sign: `" -12px"` is -12. */
  lemma {:induction false} CountWithSpaceAndSign()
    ensures ParseInt(" -12px") == Some(-12)
  {
    ParseIntFormatInt(-12, "px");
    assert Div10(12) == 1 && FormatNat(12) == "12";
    assert FormatInt(-12) == "-12";
    assert TrimStart(" -12px") == TrimStart("-12px");
    TrimStartUnchanged("-12px");
  }

  /** A `+` sign is read and dropped: `"+5"` declares 5 atoms. */
  lemma {:induction false} CountWithPlusSign()
    ensures ParseInt("+5") == Some(5)
  {
    ParseIntPlusNumeral("5", "");
    assert "+" + "5" + "" == "+5";
    assert DigitsValue("5") == 5;
  }

  /** A first line without a leading digit is NaN, so the text is rejected. */
  lemma {:induction false} NonNumericCount(rest: string)
    ensures ParseXYZ("abc\n" + rest, JsFloat) == ParsedXYZResult(false, None)
  {
    var text := "abc\n" + rest;
    assert text == "abc" + ['\n'] + rest;
    SplitOnConcat("abc", rest, '\n');
    SplitOnNoSeparator("abc", '\n');
    assert Trim("abc") == "abc" by {
      TrimUnchanged("abc");
    }
    assert ParseInt("abc") == None;
    MalformedCountInvalid(text, JsFloat);
  }

  /** `parseFloat` reads the longest decimal-literal prefix: `"1.5x"` is 1.5. */
  lemma {:induction false} FloatWithTrailingText()
    ensures ParseFloat("1.5x") == Some(Finite(1.5))
  {
    var s := "1.5x";
    TrimStartUnchanged(s);
    assert SplitSign(s) == (false, s);
    assert !HasPrefix(s, "Infinity");
    assert LeadingDigits(s) == "1";
    assert s[1..] == ".5x";
    assert LeadingDigits("5x") == "5";
    assert ".5x"[2..] == "x";
    assert ExponentOf("x") == 0;
    assert "1" + "5" == "15";
    assert DigitsValue("15") == 15;
    assert Pow10(1) == 10;
    assert Scale(15.0, -1) == 1.5;
    assert UnsignedDecimal(s) == Some(1.5);
  }

  /** A sign, a missing integer part and an exponent: `"-.25e1"` is -2.5. */
  lemma {:induction false} FloatWithExponent()
    ensures ParseFloat("-.25e1") == Some(Finite(-2.5))
  {
    var s := "-.25e1";
    TrimStartUnchanged(s);
    var u := ".25e1";
    assert SplitSign(s) == (true, u);
    assert !HasPrefix(u, "Infinity");
    assert LeadingDigits(u) == "";
    assert u[0..] == u;
    assert LeadingDigits("25e1") == "25";
    assert u[3..] == "e1";
    assert LeadingDigits("1") == "1";
    assert DigitsValue("1") == 1;
    assert ExponentOf("e1") == 1;
    assert "" + "25" == "25";
    assert DigitsValue("25") == 25;
    assert Pow10(1) == 10;
    assert Scale(25.0, -1) == 2.5;
    assert UnsignedDecimal(u) == Some(2.5);
  }

  /** An exponent marker without digits is not part of the literal: `"2e"`
      is 2. */
  lemma {:induction false} FloatWithDanglingExponent()
    ensures ParseFloat("2e") == Some(Finite(2.0))
  {
    var s := "2e";
    TrimStartUnchanged(s);
    assert SplitSign(s) == (false, s);
    assert !HasPrefix(s, "Infinity");
    assert LeadingDigits(s) == "2";
    assert s[1..] == "e";
    assert ExponentOf("e") == 0;
    assert "2" + "" == "2";
    assert DigitsValue("2") == 2;
    ScaleByZero(2.0);
    assert UnsignedDecimal(s) == Some(2.0);
  }

  /** `Infinity` is a number, not NaN. */
  lemma {:induction false} FloatInfinity()
    ensures ParseFloat("Infinity") == Some(PosInfinity)
  {
  }

  /** With JavaScript's `parseFloat`, a text whose one atom has the
      coordinates `Infinity Infinity Infinity` is accepted, and the atom sits
      at infinity: `isNaN` does not reject infinite coordinates. */
  lemma {:induction false} InfiniteCoordinateAccepted(comment: string, rec: AtomRecord)
    requires '\n' !in comment && IsToken(rec.element)
    requires rec.x == "Infinity" && rec.y == "Infinity" && rec.z == "Infinity"
    ensures var r := ParseXYZ(FormatXYZ(comment, [rec]), JsFloat);
            && r.isValid
            && |r.atoms.value| == 1
            && r.atoms.value[0].element == rec.element
            && r.atoms.value[0].position == Vector3(PosInfinity, PosInfinity, PosInfinity)
  {
    InfinityReads();
    assert Writable(rec, JsFloat);
    ParseFormatXYZ(comment, [rec], JsFloat);
    assert RecordAtom(rec, 0, JsFloat).position == Vector3(PosInfinity, PosInfinity, PosInfinity);
  }

  /** `Infinity` is a token that the reader reads as plus infinity. */
  lemma {:induction false} InfinityReads()
    ensures IsToken("Infinity")
    ensures "Infinity" in JsFloat && JsFloat["Infinity"] == PosInfinity
  {
    InfinityNoWhitespace();
    JsFloatReads("Infinity");
    FloatInfinity();
  }

  /** `Infinity` holds no whitespace. */
  lemma {:induction false} InfinityNoWhitespace()
    ensures NoWhitespace("Infinity")
  {
    var w := "Infinity";
    forall i | 0 <= i < |w| ensures !IsWhitespace(w[i]) {
      assert 'A' <= w[i] <= 'z';
    }
  }

  /** A signed `Infinity` followed by other text is still infinite. */
  lemma {:induction false} FloatNegativeInfinity()
    ensures ParseFloat("-Infinityx") == Some(NegInfinity)
  {
  }

  /** A token with no numeric prefix is NaN. */
  lemma {:induction false} FloatNaN()
    ensures ParseFloat("x") == None
  {
  }

  /** A point must be followed by a digit: `".e1"` is NaN. */
  lemma {:induction false} FloatPointWithoutDigits()
    ensures ParseFloat(".e1") == None
  {
  }

  /** A line with three fields and a trailing space splits into four tokens,
      the last one empty. It passes the four-token check, and is rejected only
      because `parseFloat("")` is NaN. */
  lemma {:induction false} TrailingSpaceNaNCoordinate(i: nat)
    ensures SplitWs("H 0 0 ") == ["H", "0", "0", ""]
    ensures ParseAtomLine("H 0 0 ", i, JsFloat) == Failure(NonNumericCoordinate(i))
  {
    TrailingSpaceTokens();
    EmptyNotRead();
  }

  /** The tokens of `"H 0 0 "`. */
  lemma {:induction false} TrailingSpaceTokens()
    ensures SplitWs("H 0 0 ") == ["H", "0", "0", ""]
  {
    var tokens := ["H", "0", "0", ""];
    assert WellFormedTokens(tokens);
    SplitJoinWs(tokens);
    assert JoinWith(tokens, ' ') == "H 0 0 ";
  }

  /** The empty token is NaN, so it is outside the reader's domain. */
  lemma {:induction false} EmptyNotRead()
    ensures "" !in JsFloat
  {
    JsFloatReads("");
    assert ParseFloat("") == None;
  }

  /** With JavaScript's `parseFloat`, a text of count 0 and a comment line is
      accepted with no atoms. */
  lemma {:induction false} NoAtoms(comment: string)
    requires '\n' !in comment
    ensures ParseXYZ(FormatXYZ(comment, []), JsFloat) == ParsedXYZResult(true, Some([]))
  {
    ParseFormatXYZ(comment, [], JsFloat);
  }
}
