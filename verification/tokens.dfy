/**
 * `line.split(/\s+/)`: splitting a line at every maximal run of whitespace.
 * Unlike a "words" function it keeps an empty first token when the line
 * starts with whitespace and an empty last token when it ends with it, and
 * the empty line splits into one empty token.
 */
module Tokens {
  import opened Strings

  /** The shape every result of `SplitWs` has: at least one token, no token
      holds whitespace, and only the first and the last token may be empty. */
  predicate WellFormedTokens(tokens: seq<string>) {
    && |tokens| >= 1
    && (forall k :: 0 <= k < |tokens| ==> NoWhitespace(tokens[k]))
    && (forall k :: 0 < k < |tokens| - 1 ==> |tokens[k]| > 0)
  }

  /** `s.split(/\s+/)`. Each maximal whitespace run separates two tokens. */
  function SplitWs(s: string): (tokens: seq<string>)
    ensures WellFormedTokens(tokens)
    ensures tokens[0] == [] <==> (|s| == 0 || IsWhitespace(s[0]))
    ensures |s| > 0 && IsWhitespace(s[0]) ==> |tokens| >= 2
    decreases |s|
  {
    if |s| == 0 then [""]
    else if IsWhitespace(s[0]) then [""] + SplitWs(TrimStart(s[1..]))
    else
      var rest := SplitWs(s[1..]);
      [[s[0]] + rest[0]] + rest[1..]
  }

  /** Replaces every maximal whitespace run of `s` by one space. */
  function Collapse(s: string): (r: string)
    ensures forall i :: 0 <= i < |r| ==> r[i] == ' ' || r[i] in s
    ensures |r| <= |s|
    decreases |s|
  {
    if |s| == 0 then ""
    else if IsWhitespace(s[0]) then
      TrimStartSlice(s[1..]);
      " " + Collapse(TrimStart(s[1..]))
    else [s[0]] + Collapse(s[1..])
  }

  /** The trailing edge of `split(/\s+/)`: the last token is empty exactly
      when the line is empty or ends with whitespace. */
  lemma {:induction false} SplitWsLast(s: string)
    ensures var tokens := SplitWs(s);
            tokens[|tokens| - 1] == [] <==> (|s| == 0 || IsWhitespace(s[|s| - 1]))
    decreases |s|
  {
    if |s| > 1 {
      var c := s[|s| - 1];
      if IsWhitespace(s[0]) {
        var t := TrimStart(s[1..]);
        SplitWsLast(t);
        SplitWsLastSpace(s);
        TrimStartLast(s[1..]);
        assert s[1..][|s| - 2] == c;
      } else {
        SplitWsLast(s[1..]);
        SplitWsLastWord(s);
        assert s[1..][|s| - 2] == c;
      }
    }
  }

  /** A leading whitespace run only adds an empty first token, so the last
      token is that of the rest. */
  lemma {:induction false} SplitWsLastSpace(s: string)
    requires |s| > 0 && IsWhitespace(s[0])
    ensures var tokens := SplitWs(s);
            var rest := SplitWs(TrimStart(s[1..]));
            tokens[|tokens| - 1] == rest[|rest| - 1]
  {
    var rest := SplitWs(TrimStart(s[1..]));
    assert SplitWs(s) == [""] + rest;
  }

  /** A leading non-whitespace character glues onto the first token. The
      last token is that of the rest, unless the rest is a single token,
      and then it is not empty. */
  lemma {:induction false} SplitWsLastWord(s: string)
    requires |s| > 1 && !IsWhitespace(s[0])
    ensures var tokens := SplitWs(s);
            var rest := SplitWs(s[1..]);
            tokens[|tokens| - 1] == [] <==> (|rest| > 1 && rest[|rest| - 1] == [])
  {
    var rest := SplitWs(s[1..]);
    var tokens := SplitWs(s);
    assert tokens == [[s[0]] + rest[0]] + rest[1..];
    if |rest| > 1 {
      assert tokens[|tokens| - 1] == rest[|rest| - 1];
    } else {
      assert |tokens[0]| > 0;
    }
  }

  /** Joining the tokens with single spaces gives the line with every
      whitespace run collapsed to one space. */
  lemma {:induction false} JoinSplitWs(s: string)
    ensures JoinWith(SplitWs(s), ' ') == Collapse(s)
    decreases |s|
  {
    if |s| > 0 {
      if IsWhitespace(s[0]) {
        var t := TrimStart(s[1..]);
        JoinSplitWs(t);
        var parts := [""] + SplitWs(t);
        assert parts[1..] == SplitWs(t);
      } else {
        JoinSplitWs(s[1..]);
        JoinWithHead(s[0], SplitWs(s[1..]), ' ');
      }
    }
  }

  /** A whitespace-free word glues onto the first token of what follows it. */
  lemma {:induction false} SplitWsPrepend(w: string, x: string)
    requires NoWhitespace(w)
    ensures SplitWs(w + x) == [w + SplitWs(x)[0]] + SplitWs(x)[1..]
  {
    if |w| == 0 {
      assert w + x == x;
      assert w + SplitWs(x)[0] == SplitWs(x)[0];
      assert [w + SplitWs(x)[0]] + SplitWs(x)[1..] == SplitWs(x);
    } else {
      var s := w + x;
      assert s[0] == w[0] && s[1..] == w[1..] + x;
      SplitWsPrepend(w[1..], x);
      assert [w[0]] + (w[1..] + SplitWs(x)[0]) == w + SplitWs(x)[0];
    }
  }

  /** A whitespace-free string is a single token. */
  lemma {:induction false} SplitWsWord(w: string)
    requires NoWhitespace(w)
    ensures SplitWs(w) == [w]
  {
    SplitWsPrepend(w, "");
    assert w + "" == w;
  }

  /** Splitting is the inverse of joining well-formed tokens with single
      spaces. */
  lemma {:induction false} SplitJoinWs(tokens: seq<string>)
    requires WellFormedTokens(tokens)
    ensures SplitWs(JoinWith(tokens, ' ')) == tokens
  {
    if |tokens| == 1 {
      SplitWsWord(tokens[0]);
    } else {
      var rest := tokens[1..];
      var j := JoinWith(rest, ' ');
      WellFormedTail(tokens);
      SplitJoinWs(rest);
      assert JoinWith(tokens, ' ') == tokens[0] + (" " + j);
      JoinStartsToken(rest);
      SplitWsSpace(j);
      SplitWsWordSpace(tokens[0], j, rest);
      assert tokens == [tokens[0]] + rest;
    }
  }

  /** Dropping the first of several well-formed tokens leaves well-formed
      tokens. */
  lemma {:induction false} WellFormedTail(tokens: seq<string>)
    requires WellFormedTokens(tokens) && |tokens| > 1
    ensures WellFormedTokens(tokens[1..])
  {
  }

  /** A single-space join of well-formed tokens other than the first does not
      start with whitespace: its first token is non-empty unless it is also
      the last. */
  lemma {:induction false} JoinStartsToken(rest: seq<string>)
    requires |rest| >= 1
    requires forall k :: 0 <= k < |rest| ==> NoWhitespace(rest[k])
    requires |rest| > 1 ==> |rest[0]| > 0
    ensures JoinWith(rest, ' ') == [] || !IsWhitespace(JoinWith(rest, ' ')[0])
  {
    var j := JoinWith(rest, ' ');
    JoinWithStart(rest, ' ');
    if |rest[0]| > 0 {
      assert j[0] == rest[0][0];
    }
  }

  /** One space before a string that does not start with whitespace adds an
      empty first token. */
  lemma {:induction false} SplitWsSpace(j: string)
    requires j == [] || !IsWhitespace(j[0])
    ensures SplitWs(" " + j) == [""] + SplitWs(j)
  {
    TrimStartUnchanged(j);
    var sp := " " + j;
    assert sp[0] == ' ' && sp[1..] == j;
  }

  /** A word, a space and a string whose tokens are `rest`: the word is the
      first token and `rest` follows. */
  lemma {:induction false} SplitWsWordSpace(w: string, j: string, rest: seq<string>)
    requires NoWhitespace(w)
    requires SplitWs(" " + j) == [""] + rest
    ensures SplitWs(w + (" " + j)) == [w] + rest
  {
    SplitWsPrepend(w, " " + j);
    assert w + "" == w;
  }

  /** Collapsing whitespace runs to single spaces does not change the tokens. */
  lemma {:induction false} SplitWsCollapse(s: string)
    ensures SplitWs(Collapse(s)) == SplitWs(s)
  {
    JoinSplitWs(s);
    SplitJoinWs(SplitWs(s));
  }
}
