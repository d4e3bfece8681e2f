/**
 `escape_literal_braces`: escapes the braces of a regular expression that are not part
 of a quantifier.

 The quantifier pattern's digits are the ASCII ones.
 */
module BraceEscaper {
  predicate IsDigit(c: char) {
    '0' <= c <= '9'
  }

  /** The length of the run of digits at the start of `s`. */
  function Digits(s: string): (n: nat)
    ensures n <= |s|
    ensures forall i | 0 <= i < n :: IsDigit(s[i])
    ensures n < |s| ==> !IsDigit(s[n])
  {
    if s == [] || !IsDigit(s[0]) then 0 else 1 + Digits(s[1..])
  }

  /** The length of the quantifier {n}, {n,} or {n,m} that `s` starts with, or 0. */
  function Quantifier(s: string): (n: nat)
    ensures n <= |s|
  {
    if s == [] || s[0] != '{' then 0 else
      var a := Digits(s[1..]);
      var end := 1 + a;
      if a == 0 || end == |s| then 0
      else if s[end] == '}' then end + 1
      else if s[end] != ',' then 0
      else
        var last := end + 1 + Digits(s[end + 1..]);
        if last < |s| && s[last] == '}' then last + 1 else 0
  }

  datatype Token = Escape(c: char) | Quantity(text: string) | Literal(c: char) {
    function Text(): string {
      match this
      case Escape(c) => ['\\', c]
      case Quantity(text) => text
      case Literal(c) => [c]
    }
  }

  /** The length of the first token: an escape pair, a quantifier, or a single character. */
  function FirstLength(s: string): (n: nat)
    requires s != []
    ensures 1 <= n <= |s|
  {
    if s[0] == '\\' && |s| > 1 then 2 else if Quantifier(s) > 0 then Quantifier(s) else 1
  }

  /** A final lone backslash is a literal. */
  function First(s: string): Token
    requires s != []
  {
    if s[0] == '\\' && |s| > 1 then Escape(s[1])
    else if Quantifier(s) > 0 then Quantity(s[..Quantifier(s)])
    else Literal(s[0])
  }

  lemma FirstIsPrefix(s: string)
    requires s != []
    ensures First(s).Text() == s[..FirstLength(s)]
  {
  }

  function Tokenize(s: string): seq<Token>
    decreases |s|
  {
    if s == [] then [] else [First(s)] + Tokenize(s[FirstLength(s)..])
  }

  function Render(tokens: seq<Token>): string {
    if tokens == [] then "" else tokens[0].Text() + Render(tokens[1..])
  }

  predicate IsBrace(c: char) {
    c == '{' || c == '}'
  }

  function Escaped(t: Token): Token {
    if t.Literal? && IsBrace(t.c) then Escape(t.c) else t
  }

  function EscapedAll(tokens: seq<Token>): (r: seq<Token>)
    ensures |r| == |tokens|
  {
    seq(|tokens|, i requires 0 <= i < |tokens| => Escaped(tokens[i]))
  }

  /** The pattern with every literal brace escaped. */
  function EscapedText(s: string): string
    decreases |s|
  {
    if s == [] then "" else Escaped(First(s)).Text() + EscapedText(s[FirstLength(s)..])
  }

  method EscapeLiteralBraces(pattern: string) returns (result: string)
    ensures result == EscapedText(pattern)
  {
    result := "";
    var i := 0;
    ghost var rest := pattern;
    while i < |pattern|
      invariant 0 <= i <= |pattern| && rest == pattern[i..]
      invariant result + EscapedText(rest) == EscapedText(pattern)
    {
      var piece, n := NextPiece(pattern, i);
      ScanStep(rest, result);
      rest := rest[n..];
      result, i := result + piece, i + n;
    }
  }

  lemma {:induction false} ScanStep(s: string, result: string)
    requires s != []
    ensures (result + Escaped(First(s)).Text()) + EscapedText(s[FirstLength(s)..]) == result + EscapedText(s)
  {
    Regroup(result, Escaped(First(s)).Text(), EscapedText(s[FirstLength(s)..]), EscapedText(s));
  }

  lemma Regroup(a: string, b: string, c: string, bc: string)
    requires bc == b + c
    ensures (a + b) + c == a + bc
  {
  }

  /** What one round of the scan pushes, and how far it moves. */
  method NextPiece(pattern: string, i: nat) returns (piece: string, n: nat)
    requires i < |pattern|
    ensures piece == Escaped(First(pattern[i..])).Text() && n == FirstLength(pattern[i..])
  {
    var c := pattern[i];
    if c == '\\' && i + 1 < |pattern| {
      return [c, pattern[i + 1]], 2;
    }
    if c == '{' {
      var m := Quantifier(pattern[i..]);
      if m > 0 {
        return pattern[i..i + m], m;
      }
      return "\\{", 1;
    }
    if c == '}' {
      return "\\}", 1;
    }
    return [c], 1;
  }

  // ----- The result reads as the same tokens

  lemma {:induction false} DigitsFollowedBy(s: string, n: nat)
    requires n < |s| && !IsDigit(s[n]) && forall i | 0 <= i < n :: IsDigit(s[i])
    ensures Digits(s) == n
  {
    if n > 0 {
      assert forall i | 0 <= i < n - 1 :: s[1..][i] == s[i + 1];
      DigitsFollowedBy(s[1..], n - 1);
    }
  }

  predicate AllDigits(s: string) {
    forall c | c in s :: '0' <= c <= '9'
  }

  ghost predicate IsQuantifier(t: string) {
    exists a, b | AllDigits(a) && AllDigits(b) :: a != [] && (t == "{" + a + "}" || t == "{" + a + "," + b + "}")
  }

  /** The scan finds a quantifier of length `n` exactly if one is there. */
  lemma {:induction false} QuantifierIff(s: string, n: nat)
    requires 0 < n <= |s|
    ensures Quantifier(s) == n <==> IsQuantifier(s[..n])
  {
    if Quantifier(s) == n {
      var a := Digits(s[1..]);
      var end := 1 + a;
      assert AllDigits(s[1..][..a]) && AllDigits("");
      if s[end] == '}' {
        assert s[..n] == "{" + s[1..][..a] + "}";
      } else {
        var d := Digits(s[end + 1..]);
        assert AllDigits(s[end + 1..][..d]);
        assert s[..n] == "{" + s[1..][..a] + "," + s[end + 1..][..d] + "}";
      }
    }
    if IsQuantifier(s[..n]) {
      var a, b :| AllDigits(a) && AllDigits(b) && a != []
                  && (s[..n] == "{" + a + "}" || s[..n] == "{" + a + "," + b + "}");
      QuantifierFound(s, n, a, b);
    }
  }

  lemma {:induction false} QuantifierFound(s: string, n: nat, a: string, b: string)
    requires n <= |s| && AllDigits(a) && AllDigits(b) && a != []
    requires s[..n] == "{" + a + "}" || s[..n] == "{" + a + "," + b + "}"
    ensures Quantifier(s) == n
  {
    if s[..n] == "{" + a + "}" {
      PartsOf("{", a, "}");
      DigitRun(s, 1, a);
    } else {
      RangeFound(s, n, a, b);
    }
  }

  lemma {:induction false} RangeFound(s: string, n: nat, a: string, b: string)
    requires n <= |s| && AllDigits(a) && AllDigits(b) && a != []
    requires s[..n] == "{" + a + "," + b + "}"
    ensures Quantifier(s) == n
  {
    var t, end := s[..n], 1 + |a|;
    RangeParts(a, b);
    assert s[0] == t[0] && s[end] == t[end] && s[n - 1] == t[n - 1];
    assert s[1..end] == t[1..end] && s[end + 1..n - 1] == t[end + 1..n - 1];
    DigitRun(s, 1, a);
    DigitRun(s, end + 1, b);
  }

  lemma RangeParts(a: string, b: string)
    ensures var t, end := "{" + a + "," + b + "}", 1 + |a|;
            && |t| == end + |b| + 2
            && t[0] == '{' && t[end] == ',' && t[end + 1 + |b|] == '}'
            && t[1..end] == a && t[end + 1..end + 1 + |b|] == b
  {
  }

  lemma PartsOf(a: string, b: string, c: string)
    ensures var t := a + b + c;
            && |t| == |a| + |b| + |c| && t[..|a|] == a && t[|a|..|a| + |b|] == b && t[|a| + |b|..] == c
  {
  }

  lemma {:induction false} DigitRun(s: string, from: nat, digits: string)
    requires AllDigits(digits) && from + |digits| < |s| && s[from..from + |digits|] == digits
    requires !IsDigit(s[from + |digits|])
    ensures Digits(s[from..]) == |digits|
  {
    var u := s[from..];
    assert forall i | 0 <= i < |digits| :: u[i] == digits[i] && digits[i] in digits;
    DigitsFollowedBy(u, |digits|);
  }

  /** Whether a quantifier starts here depends only on the text of the quantifier. */
  lemma {:induction false} QuantifierOfPrefix(s: string, more: string)
    requires Quantifier(s) > 0
    ensures Quantifier(s[..Quantifier(s)] + more) == Quantifier(s)
  {
    var n := Quantifier(s);
    QuantifierIff(s, n);
    assert (s[..n] + more)[..n] == s[..n];
    QuantifierIff(s[..n] + more, n);
  }

  /** Tokens that can stand anywhere; a lone backslash only stands at the end. */
  predicate Closed(t: Token) {
    match t
    case Escape(_) => true
    case Quantity(text) => Quantifier(text) == |text| && |text| > 0
    case Literal(c) => c != '\\' && !IsBrace(c)
  }

  lemma {:induction false} FirstOfText(t: Token, more: string)
    requires Closed(t)
    ensures t.Text() + more != [] && First(t.Text() + more) == t
  {
    if t.Quantity? {
      QuantifierOfPrefix(t.text, more);
      assert t.text[..|t.text|] == t.text;
      assert (t.text + more)[..|t.text|] == t.text;
    }
  }

  lemma {:induction false} TokenizeAfterClosed(t: Token, more: string)
    requires Closed(t)
    ensures Tokenize(t.Text() + more) == [t] + Tokenize(more)
  {
    FirstOfText(t, more);
    FirstIsPrefix(t.Text() + more);
    assert (t.Text() + more)[|t.Text()|..] == more;
  }

  /** What follows the first token decides nothing about it, except for a final backslash. */
  lemma {:induction false} EscapedFirstIsClosed(s: string)
    requires s != []
    ensures Closed(Escaped(First(s))) || (s == "\\" && First(s) == Literal('\\'))
  {
    if First(s).Quantity? {
      QuantifierOfPrefix(s, "");
      assert s[..Quantifier(s)] + "" == s[..Quantifier(s)];
    }
  }

  /**
   Main result: the escaped pattern has the tokens of the original, in order, with each
   literal brace turned into an escaped one and nothing else changed.
   */
  lemma {:induction false} EscapingKeepsTokens(s: string)
    ensures Tokenize(EscapedText(s)) == EscapedAll(Tokenize(s))
    decreases |s|
  {
    if s != [] {
      var t := First(s);
      var rest := s[FirstLength(s)..];
      EscapingKeepsTokens(rest);
      EscapedFirstIsClosed(s);
      EscapedAllCons(t, Tokenize(rest));
      if Closed(Escaped(t)) {
        TokenizeAfterClosed(Escaped(t), EscapedText(rest));
      } else {
        assert rest == [] && Tokenize(rest) == [];
        assert EscapedText(s) == s + "" == s;
      }
    }
  }

  /** Token by token: a literal brace becomes that brace escaped, every other token stays. */
  lemma {:induction false} EscapedTokenIs(s: string, i: nat)
    requires i < |Tokenize(s)|
    ensures |Tokenize(EscapedText(s))| == |Tokenize(s)|
    ensures var t, t' := Tokenize(s)[i], Tokenize(EscapedText(s))[i];
            && (t == Literal('{') ==> t' == Escape('{'))
            && (t == Literal('}') ==> t' == Escape('}'))
            && (t != Literal('{') && t != Literal('}') ==> t' == t)
  {
    EscapingKeepsTokens(s);
    var tokens := Tokenize(s);
    assert EscapedAll(tokens)[i] == Escaped(tokens[i]);
  }

  /** The first token of a text, told by the text alone. */
  lemma {:induction false} FirstTokenIs(s: string, n: nat)
    requires s != []
    ensures s[0] == '\\' && |s| > 1 ==> First(s) == Escape(s[1]) && FirstLength(s) == 2
    ensures 0 < n <= |s| && IsQuantifier(s[..n]) ==> First(s) == Quantity(s[..n]) && FirstLength(s) == n
    ensures !(s[0] == '\\' && |s| > 1) && (forall k | 0 < k <= |s| :: !IsQuantifier(s[..k])) ==>
              First(s) == Literal(s[0]) && FirstLength(s) == 1
  {
    if 0 < n <= |s| && IsQuantifier(s[..n]) {
      QuantifierIff(s, n);
      assert s[0] == s[..n][0] == '{';
    }
    if Quantifier(s) > 0 {
      QuantifierIff(s, Quantifier(s));
    }
  }

  /** Unescaped braces are left only around {n}, {n,} and {n,m}. */
  lemma {:induction false} OnlyQuantifierBracesRemain(s: string, i: nat)
    requires i < |Tokenize(EscapedText(s))|
    ensures var t := Tokenize(EscapedText(s))[i];
            && (t.Literal? ==> !IsBrace(t.c))
            && (t.Quantity? ==> IsQuantifier(t.text))
  {
    EscapingKeepsTokens(s);
    var tokens := Tokenize(s);
    assert EscapedAll(tokens)[i] == Escaped(tokens[i]);
    QuantitiesAreQuantifiers(s, i);
  }

  lemma {:induction false} FirstQuantityIsQuantifier(s: string)
    requires s != []
    ensures First(s).Quantity? ==> IsQuantifier(First(s).text)
  {
    if First(s).Quantity? {
      QuantifierIff(s, Quantifier(s));
    }
  }

  lemma {:induction false} QuantitiesAreQuantifiers(s: string, i: nat)
    requires i < |Tokenize(s)|
    ensures Tokenize(s)[i].Quantity? ==> IsQuantifier(Tokenize(s)[i].text)
    decreases |s|
  {
    if i == 0 {
      FirstQuantityIsQuantifier(s);
    } else {
      var rest := s[FirstLength(s)..];
      assert Tokenize(s)[i] == Tokenize(rest)[i - 1];
      QuantitiesAreQuantifiers(rest, i - 1);
    }
  }

  /** Main result: escaping twice is escaping once. */
  lemma {:induction false} EscapingIsIdempotent(s: string)
    ensures EscapedText(EscapedText(s)) == EscapedText(s)
  {
    EscapingKeepsTokens(s);
    var tokens := Tokenize(s);
    assert EscapedAll(EscapedAll(tokens)) == EscapedAll(tokens);
    EscapedTextRenders(s);
    EscapedTextRenders(EscapedText(s));
  }

  lemma {:induction false} RenderCons(t: Token, rest: seq<Token>)
    ensures Render([t] + rest) == t.Text() + Render(rest)
  {
    assert ([t] + rest)[1..] == rest;
  }

  lemma {:induction false} EscapedAllCons(t: Token, rest: seq<Token>)
    ensures EscapedAll([t] + rest) == [Escaped(t)] + EscapedAll(rest)
  {
  }

  /** Escaping is escaping token by token. */
  lemma {:induction false} EscapedTextRenders(s: string)
    ensures EscapedText(s) == Render(EscapedAll(Tokenize(s)))
    decreases |s|
  {
    if s != [] {
      var rest := s[FirstLength(s)..];
      EscapedTextRenders(rest);
      EscapedAllCons(First(s), Tokenize(rest));
      RenderCons(Escaped(First(s)), EscapedAll(Tokenize(rest)));
    }
  }

  lemma {:induction false} FirstSplits(s: string)
    requires s != []
    ensures s == First(s).Text() + s[FirstLength(s)..]
  {
    FirstIsPrefix(s);
    assert s == s[..FirstLength(s)] + s[FirstLength(s)..];
  }

  /** A pattern is the text of its tokens. */
  lemma {:induction false} RenderTokens(s: string)
    ensures Render(Tokenize(s)) == s
    decreases |s|
  {
    if s != [] {
      var n := FirstLength(s);
      RenderTokens(s[n..]);
      RenderCons(First(s), Tokenize(s[n..]));
      FirstSplits(s);
    }
  }

  /** Escaping changes nothing exactly if there is no literal brace. */
  lemma {:induction false} UnchangedIff(s: string)
    ensures EscapedText(s) == s <==> forall i | 0 <= i < |Tokenize(s)| :: Escaped(Tokenize(s)[i]) == Tokenize(s)[i]
  {
    var tokens := Tokenize(s);
    RenderTokens(s);
    EscapedTextRenders(s);
    if EscapedText(s) == s {
      EscapingKeepsTokens(s);
      assert forall i | 0 <= i < |tokens| :: EscapedAll(tokens)[i] == Escaped(tokens[i]);
    }
    if forall i | 0 <= i < |tokens| :: Escaped(tokens[i]) == tokens[i] {
      assert EscapedAll(tokens) == tokens;
    }
  }
}
