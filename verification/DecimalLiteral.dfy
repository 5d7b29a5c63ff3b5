/** The decimal-literal recogniser of the argument parser (include/argparse.hpp:800-973), against
    the grammar written above it. */
module DecimalLiteral {

  // ---- the grammar ----

  predicate IsDigit(c: char) { '0' <= c <= '9' }

  predicate AllDigits(s: string) { forall i :: 0 <= i < |s| ==> IsDigit(s[i]) }

  /** digit-sequence, and integer-part */
  predicate DigitSequence(s: string) { s != "" && AllDigits(s) }

  /** post-e: sign_opt digit-sequence */
  predicate PostE(s: string) {
    DigitSequence(s) || (s != "" && (s[0] == '+' || s[0] == '-') && DigitSequence(s[1..]))
  }

  /** exponent-part: 'e' post-e | 'E' post-e */
  predicate ExponentPart(s: string) {
    s != "" && (s[0] == 'e' || s[0] == 'E') && PostE(s[1..])
  }

  predicate ExponentPartOpt(s: string) { s == "" || ExponentPart(s) }

  /** post-decimal-point: digit-sequence exponent-part_opt */
  ghost predicate PostDecimalPoint(s: string) {
    exists i :: 0 <= i <= |s| && DigitSequence(s[..i]) && ExponentPartOpt(s[i..])
  }

  /** fractional-part: '.' post-decimal-point */
  ghost predicate FractionalPart(s: string) {
    s != "" && s[0] == '.' && PostDecimalPoint(s[1..])
  }

  /** What may follow an integer-part: fractional-part | '.' exponent-part_opt | exponent-part */
  ghost predicate AfterInteger(s: string) {
    FractionalPart(s) || (s != "" && s[0] == '.' && ExponentPartOpt(s[1..])) || ExponentPart(s)
  }

  ghost predicate WithIntegerPart(s: string) {
    exists i :: 0 <= i <= |s| && DigitSequence(s[..i]) && AfterInteger(s[i..])
  }

  /** decimal-literal */
  ghost predicate Literal(s: string) {
    s == "0" || (s != "" && '1' <= s[0] <= '9' && AllDigits(s[1..])) || WithIntegerPart(s) || FractionalPart(s)
  }

  /** positional: _empty_ | '-' | '-' decimal-literal | !'-' anything */
  ghost predicate Positional(s: string) {
    s == "" || s == "-" || (s[0] == '-' && Literal(s[1..])) || s[0] != '-'
  }

  // ---- maximal munch loses nothing ----

  predicate NoDigitFirst(s: string) { s == "" || !IsDigit(s[0]) }

  /** A digit prefix cannot reach past a non-digit. */
  lemma DigitsStop(s: string, i: nat, k: nat)
    requires i <= |s| && k <= |s| && NoDigitFirst(s[i..]) && AllDigits(s[..k])
    ensures k <= i
  {
    if i < |s| { assert s[i..][0] == s[i]; }
    assert forall j :: 0 <= j < k ==> IsDigit(s[..k][j]) && s[..k][j] == s[j];
  }

  /** Two ways of splitting off a digit sequence before a non-digit are the same. */
  lemma SplitIsUnique(s: string, i: nat, k: nat)
    requires i <= |s| && k <= |s|
    requires AllDigits(s[..i]) && NoDigitFirst(s[i..])
    requires AllDigits(s[..k]) && NoDigitFirst(s[k..])
    ensures i == k
  {
    DigitsStop(s, i, k);
    DigitsStop(s, k, i);
  }

  lemma MunchFraction(s: string, k: nat)
    requires k <= |s| && AllDigits(s[..k]) && NoDigitFirst(s[k..])
    ensures PostDecimalPoint(s) <==> k > 0 && ExponentPartOpt(s[k..])
  {
    if i :| 0 <= i <= |s| && DigitSequence(s[..i]) && ExponentPartOpt(s[i..]) {
      SplitIsUnique(s, i, k);
    }
  }

  lemma MunchInteger(s: string, k: nat)
    requires k <= |s| && AllDigits(s[..k]) && NoDigitFirst(s[k..])
    ensures WithIntegerPart(s) <==> k > 0 && AfterInteger(s[k..])
  {
    if i :| 0 <= i <= |s| && DigitSequence(s[..i]) && AfterInteger(s[i..]) {
      SplitIsUnique(s, i, k);
    }
  }

  /** Some of the strings on either side of the line. */
  lemma GrammarAccepts()
    ensures Literal("0") && Literal("10") && Literal("01.") && Literal("1e5") && Literal(".5") && Literal("1.e-5")
  {
    ZeroOneDot();
    ExponentExamples();
    assert ".5"[1..] == "5" && "5"[1..] == "";
    MunchFraction("5", 1);
  }

  lemma ZeroOneDot()
    ensures WithIntegerPart("01.")
  {
    assert "01."[2..] == "." && "."[1..] == "";
    MunchInteger("01.", 2);
  }

  lemma ExponentExamples()
    ensures WithIntegerPart("1e5") && WithIntegerPart("1.e-5")
  {
    assert "1e5"[1..] == "e5" && "e5"[1..] == "5";
    MunchInteger("1e5", 1);
    assert "1.e-5"[1..] == ".e-5" && ".e-5"[1..] == "e-5" && "e-5"[1..] == "-5" && "-5"[1..] == "5";
    MunchInteger("1.e-5", 1);
  }

  lemma GrammarRefuses()
    ensures !Literal("") && !Literal("01") && !Literal("1e") && !Literal(".") && !Literal("+1")
  {
    OpenExponent();
    assert "01"[2..] == "" && "01"[..2] == "01";
    MunchInteger("01", 2);
    MunchInteger("", 0);
    MunchInteger(".", 0);
    MunchFraction("", 0);
    MunchInteger("+1", 0);
  }

  lemma OpenExponent()
    ensures !WithIntegerPart("1e")
  {
    assert "1e"[1..] == "e" && "e"[1..] == "";
    MunchInteger("1e", 1);
  }

  // ---- the recogniser, label by label ----

  const EOF: int := -1

  function Lookahead(s: string): (r: int)
    ensures r == EOF <==> s == ""
    ensures s != "" ==> r == s[0] as int
  {
    if s == "" then EOF else s[0] as int
  }

  /** consume_digits: drops the longest digit prefix. */
  method ConsumeDigits(s: string) returns (k: nat, rest: string)
    ensures k <= |s| && rest == s[k..] && AllDigits(s[..k]) && NoDigitFirst(rest)
  {
    k := 0;
    while k < |s| && IsDigit(s[k])
      invariant k <= |s| && AllDigits(s[..k])
    {
      k := k + 1;
    }
    rest := s[k..];
  }

  /** post_e: */
  method AtPostE(s: string) returns (ok: bool)
    ensures ok <==> PostE(s)
  {
    var view := s;
    if Lookahead(view) == '-' as int || Lookahead(view) == '+' as int {
      view := view[1..];
    }
    if view != "" && IsDigit(view[0]) {
      var k, rest := ConsumeDigits(view);
      ok := rest == "";
      if ok { assert view[..k] == view; } else { assert view[k] == rest[0]; }
    } else {
      ok := false;
    }
  }

  /** exponent_part_opt: */
  method AtExponentPartOpt(s: string) returns (ok: bool)
    ensures ok <==> ExponentPartOpt(s)
  {
    if Lookahead(s) == EOF {
      ok := true;
    } else if Lookahead(s) == 'e' as int || Lookahead(s) == 'E' as int {
      ok := AtPostE(s[1..]);
    } else {
      ok := false;
    }
  }

  /** post_decimal_point: */
  method AtPostDecimalPoint(s: string) returns (ok: bool)
    ensures ok <==> PostDecimalPoint(s)
  {
    var k, rest := ConsumeDigits(s);
    MunchFraction(s, k);
    if s != "" && IsDigit(s[0]) {
      ok := AtExponentPartOpt(rest);
    } else {
      ok := false;
    }
  }

  /** integer_part_consumed: */
  method AtIntegerPartConsumed(s: string) returns (ok: bool)
    requires NoDigitFirst(s)
    ensures ok <==> AfterInteger(s)
  {
    if Lookahead(s) == '.' as int {
      var view := s[1..];
      var k, rest := ConsumeDigits(view);
      MunchFraction(view, k);
      if view != "" && IsDigit(view[0]) {
        ok := AtPostDecimalPoint(view);
      } else {
        ok := AtExponentPartOpt(view);
      }
    } else if Lookahead(s) == 'e' as int || Lookahead(s) == 'E' as int {
      ok := AtPostE(s[1..]);
    } else {
      ok := false;
    }
  }

  /** Recogniser equals grammar: the goto-driven, maximal-munch recogniser accepts a string exactly
      when the grammar derives it. */
  method IsDecimalLiteral(s: string) returns (ok: bool)
    ensures ok <==> Literal(s)
  {
    if s == "" {
      NoIntegerPart(s);
      return false;
    }
    var c := s[0];
    if c == '0' {
      var view := s[1..];
      if view == "" {
        assert s == "0";
        return true;
      }
      var k, rest := ConsumeDigits(view);
      assert s[..k + 1] == [c] + view[..k] && s[k + 1..] == rest;
      MunchInteger(s, k + 1);
      ok := AtIntegerPartConsumed(rest);
    } else if '1' <= c <= '9' {
      var k, rest := ConsumeDigits(s);
      MunchInteger(s, k);
      if rest == "" {
        assert s[..k] == s;
        return true;
      }
      NonZeroRest(s, k);
      ok := AtIntegerPartConsumed(rest);
    } else if c == '.' {
      NoIntegerPart(s);
      ok := AtPostDecimalPoint(s[1..]);
    } else {
      NoIntegerPart(s);
      ok := false;
    }
  }

  lemma NoIntegerPart(s: string)
    requires NoDigitFirst(s)
    ensures !WithIntegerPart(s)
  {
    MunchInteger(s, 0);
  }

  lemma NonZeroRest(s: string, k: nat)
    requires 0 < k < |s| && !IsDigit(s[k])
    ensures !AllDigits(s[1..])
  {
    assert s[1..][k - 1] == s[k];
  }

  method IsPositional(name: string, prefixChars: string) returns (ok: bool)
    ensures ok <==> name == "" || name[0] !in prefixChars || |name| == 1 || Literal(name[1..])
    ensures prefixChars == "-" ==> (ok <==> Positional(name))
  {
    var first := Lookahead(name);
    if first == EOF {
      return true;
    } else if name[0] in prefixChars {
      var view := name[1..];
      if view == "" {
        assert prefixChars == "-" ==> name == "-";
        return true;
      }
      ok := IsDecimalLiteral(view);
    } else {
      ok := true;
    }
  }

  method IsOptional(name: string, prefixChars: string) returns (ok: bool)
    ensures prefixChars == "-" ==> (ok <==> !Positional(name))
    ensures ok <==> name != "" && name[0] in prefixChars && |name| > 1 && !Literal(name[1..])
  {
    var positional := IsPositional(name, prefixChars);
    ok := !positional;
  }
}
