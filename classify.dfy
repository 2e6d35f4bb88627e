/** The token classifiers `Warp.is_*?` (main.rb:342-364) and the atom case
    of `read_ahead` that applies them in a fixed order (main.rb:67-81). The
    regular expressions are unanchored unless stated, so each predicate asks
    whether the pattern occurs somewhere in the token. */
module Classify {
  import opened Base
  import opened Numerals
  import opened Values
  import Lexer

  /** `\w` in a Ruby regular expression: an ASCII letter, digit or '_'. */
  predicate IsWordChar(c: char) {
    ('a' <= c <= 'z') || ('A' <= c <= 'Z') || IsDigit(c) || c == '_'
  }

  predicate AllDigits(s: string) {
    forall i :: 0 <= i < |s| ==> IsDigit(s[i])
  }

  /** `[0-9]*\.?[0-9]+` matching the whole of `b`. */
  predicate IsUnsignedNumeral(b: string) {
    (b != [] && AllDigits(b))
    || exists k :: 0 <= k < |b| - 1 && b[k] == '.' && AllDigits(b[..k]) && AllDigits(b[k + 1..])
  }

  /** `[-+]?[0-9]*\.?[0-9]+` matching a whole line. */
  predicate IsNumeralLine(l: string) {
    if l != [] && (l[0] == '-' || l[0] == '+') then IsUnsignedNumeral(l[1..]) else IsUnsignedNumeral(l)
  }

  /** `is_double?`: `^` and `$` are line anchors in Ruby, so the token
      qualifies when one of its lines is a numeral. */
  predicate IsDouble(s: string)
    decreases |s|
  {
    var l := Lexer.Line(s);
    IsNumeralLine(l) || (|l| < |s| && IsDouble(s[|l| + 1..]))
  }

  /** `w` occurs in `s`. */
  predicate HasInfix(s: string, w: string)
    decreases |s|
  {
    (|w| <= |s| && s[..|w|] == w) || (s != [] && HasInfix(s[1..], w))
  }

  /** A word longer than the text does not occur in it. */
  lemma {:induction false} ShortNoInfix(s: string, w: string)
    requires |s| < |w|
    ensures !HasInfix(s, w)
    decreases |s|
  {
    if s != [] {
      ShortNoInfix(s[1..], w);
    }
  }

  /** A word that neither starts a text nor occurs in what follows the
      first character does not occur in it. */
  lemma NoInfixHere(s: string, w: string)
    requires |w| <= |s| && s[..|w|] != w && |s[1..]| < |w|
    ensures !HasInfix(s, w)
  {
    ShortNoInfix(s[1..], w);
  }

  /** `is_bool?`: /true|false/. */
  predicate IsBool(s: string) {
    HasInfix(s, "true") || HasInfix(s, "false")
  }

  /** `is_char?`: /#:[\w]+/. */
  predicate IsChar(s: string)
    decreases |s|
  {
    (|s| >= 3 && s[0] == '#' && s[1] == ':' && IsWordChar(s[2])) || (s != [] && IsChar(s[1..]))
  }

  predicate IsQuote(c: char) {
    c == '\'' || c == '"'
  }

  /** A match of the `is_string?` pattern from `i` to `j`: an unescaped quote
      at `i`, the same quote at `j`, and no line break between them. */
  predicate QuotedSpan(s: string, i: int, j: int) {
    0 <= i < j < |s| && IsQuote(s[i]) && s[j] == s[i] && (i == 0 || s[i - 1] != '\\')
    && forall k :: i < k < j ==> s[k] != '\n'
  }

  /** `is_string?` (main.rb:354-356). */
  predicate IsString(s: string) {
    exists i, j | 0 <= i < j < |s| :: QuotedSpan(s, i, j)
  }

  /** Characters any one of which makes `is_symbol?` hold. */
  predicate IsSymbolChar(c: char) {
    c in "+*-%<>=" || IsWordChar(c)
  }

  /** `is_symbol?`: /\+|\*|\-|\%|<|>|=|\w+/. */
  predicate IsSymbol(s: string) {
    exists i :: 0 <= i < |s| && IsSymbolChar(s[i])
  }

  /** A double-quoted literal with no backslash, quote or line break inside. */
  predicate IsPlainLiteral(tok: string) {
    |tok| >= 2 && tok[0] == '"' && tok[|tok| - 1] == '"'
    && forall k :: 0 < k < |tok| - 1 ==> tok[k] != '"' && tok[k] != '\\' && tok[k] != '\n'
  }

  /** The quote stripping in `Char.new` (main.rb:169-176): text without a
      quoted span is kept; a plain literal loses its quotes; other quoted
      text is outside this model. */
  function StripQuotes(tok: string): (r: Result<string>)
    ensures !IsString(tok) ==> r == Ok(tok)
    ensures IsPlainLiteral(tok) ==> r == Ok(tok[1..|tok| - 1])
    ensures r.Err? ==> r.error == UnsupportedLiteral
  {
    if IsPlainLiteral(tok) then
      PlainLiteralIsString(tok);
      Ok(tok[1..|tok| - 1])
    else if !IsString(tok) then Ok(tok)
    else Err(UnsupportedLiteral)
  }

  /** The atom branches of `read_ahead`: the first classifier that holds
      decides the kind. */
  function Atom(tok: string): (r: Result<Value>)
    ensures r.Ok? ==> r.value.Fixnum? || r.value.Double? || r.value.Boolean? || r.value.Char? || r.value.Str? || r.value.Symbol?
  {
    if IsFixnum(tok) then Ok(Fixnum(ToI(tok)))
    else if IsDouble(tok) then Ok(Double)
    else if IsBool(tok) then Ok(Boolean(tok))
    else if IsChar(tok) then
      var t :- StripQuotes(tok);
      Ok(Char(t))
    else if IsString(tok) then
      var t :- StripQuotes(tok);
      Ok(Str(t))
    else if IsSymbol(tok) then Ok(Symbol(tok))
    else Err(UnknownType)
  }

  // ----- properties of the classification -----

  lemma PlainLiteralIsString(tok: string)
    requires IsPlainLiteral(tok)
    ensures IsString(tok)
  {
    assert QuotedSpan(tok, 0, |tok| - 1);
  }

  /** A plain literal that `is_bool?` and `is_char?` pass over reads as the
      String of its inside. */
  lemma PlainLiteralIsStr(tok: string)
    requires IsPlainLiteral(tok) && !IsBool(tok) && !IsChar(tok)
    ensures Atom(tok) == Ok(Str(tok[1..|tok| - 1]))
  {
    assert !IsFixnum(tok) by {
      DecimalStart(ToI(tok));
    }
    assert !IsDouble(tok) by {
      QuoteFirstNotDouble(tok);
    }
    PlainLiteralIsString(tok);
  }

  /** `Integer#to_s` starts with a sign or a digit. */
  lemma DecimalStart(n: int)
    ensures Decimal(n)[0] == '-' || IsDigit(Decimal(n)[0])
  {
  }

  /** A single-line token starting with a quote is no numeral. */
  lemma QuoteFirstNotDouble(tok: string)
    requires tok != [] && tok[0] == '"' && '\n' !in tok
    ensures !IsDouble(tok)
  {
    Lexer.LineWhole(tok);
    assert forall k :: 0 < k <= |tok| ==> !AllDigits(tok[..k]) by {
      forall k | 0 < k <= |tok| ensures !AllDigits(tok[..k]) {
        assert tok[..k][0] == '"';
      }
    }
    assert !IsUnsignedNumeral(tok);
  }

  lemma DecimalHasDigit(n: int)
    ensures IsDigit(Decimal(n)[|Decimal(n)| - 1])
  {
    if n < 0 {
      assert Decimal(n)[|Decimal(n)| - 1] == Digits(-n)[|Digits(-n)| - 1];
    }
  }

  lemma {:induction false} InfixSymbolChar(s: string, w: string)
    requires HasInfix(s, w)
    requires w != [] && IsSymbolChar(w[0])
    ensures IsSymbol(s)
    decreases |s|
  {
    if |w| <= |s| && s[..|w|] == w {
      assert s[0] == w[0];
    } else {
      InfixSymbolChar(s[1..], w);
      var i :| 0 <= i < |s[1..]| && IsSymbolChar(s[1..][i]);
      assert IsSymbolChar(s[i + 1]);
    }
  }

  lemma {:induction false} CharHasWord(s: string)
    requires IsChar(s)
    ensures IsSymbol(s)
    decreases |s|
  {
    if |s| >= 3 && s[0] == '#' && s[1] == ':' && IsWordChar(s[2]) {
      assert IsSymbolChar(s[2]);
    } else {
      CharHasWord(s[1..]);
      var i :| 0 <= i < |s[1..]| && IsSymbolChar(s[1..][i]);
      assert IsSymbolChar(s[i + 1]);
    }
  }

  lemma {:induction false} CharHasHash(s: string)
    requires IsChar(s)
    ensures '#' in s
    decreases |s|
  {
    if !(|s| >= 3 && s[0] == '#' && s[1] == ':' && IsWordChar(s[2])) {
      CharHasHash(s[1..]);
    }
  }

  lemma NumeralLineHasDigit(l: string)
    requires IsNumeralLine(l)
    ensures l != [] && IsDigit(l[|l| - 1])
  {
    var b := if l != [] && (l[0] == '-' || l[0] == '+') then l[1..] else l;
    assert IsUnsignedNumeral(b);
    if !(b != [] && AllDigits(b)) {
      var k :| 0 <= k < |b| - 1 && b[k] == '.' && AllDigits(b[..k]) && AllDigits(b[k + 1..]);
      assert b[|b| - 1] == b[k + 1..][|b| - k - 2];
    }
    assert b[|b| - 1] == l[|l| - 1];
  }

  lemma {:induction false} DoubleHasDigit(s: string)
    requires IsDouble(s)
    ensures HasDigit(s) && IsSymbol(s)
    decreases |s|
  {
    var l := Lexer.Line(s);
    if IsNumeralLine(l) {
      NumeralLineHasDigit(l);
      assert IsDigit(s[|l| - 1]) && IsSymbolChar(s[|l| - 1]);
    } else {
      var r := s[|l| + 1..];
      DoubleHasDigit(r);
      var i :| 0 <= i < |r| && IsDigit(r[i]);
      assert IsDigit(s[|l| + 1 + i]) && IsSymbolChar(s[|l| + 1 + i]);
    }
  }

  /** A token is of unknown type exactly when it holds no quoted span and
      none of the characters `is_symbol?` looks for: every earlier test
      needs a digit, a letter or a quote. */
  lemma UnknownTypeExactly(tok: string)
    ensures Atom(tok) == Err(UnknownType) <==> !IsString(tok) && !IsSymbol(tok)
  {
    if IsFixnum(tok) {
      DecimalHasDigit(ToI(tok));
      assert IsSymbolChar(tok[|tok| - 1]);
    } else if IsDouble(tok) {
      DoubleHasDigit(tok);
    } else if IsBool(tok) {
      if HasInfix(tok, "true") {
        InfixSymbolChar(tok, "true");
      } else {
        InfixSymbolChar(tok, "false");
      }
    } else if IsChar(tok) {
      CharHasWord(tok);
    }
  }

  /** The Fixnum branch keeps the token's text: writing the value back gives
      the token, and every integer's text reads as that integer. */
  lemma FixnumTokens(tok: string, n: int)
    ensures Atom(tok) == Ok(Fixnum(n)) ==> Decimal(n) == tok
    ensures Atom(Decimal(n)) == Ok(Fixnum(n))
  {
    FixnumRoundTrip(n);
  }

  predicate HasDigit(s: string) {
    exists i :: 0 <= i < |s| && IsDigit(s[i])
  }

  /** What `Integer#to_s` writes never has a sign other than a leading '-',
      a '.', or a leading '0' unless it is "0". */
  lemma DecimalShape(n: int)
    ensures Decimal(n)[0] != '+'
    ensures '.' !in Decimal(n)
    ensures Decimal(n) != "-0"
    ensures |Decimal(n)| >= 2 ==> Decimal(n)[0] != '0'
  {
    if n < 0 {
      assert Decimal(n)[1..] == Digits(-n);
    }
  }

  /** A line of digits with more than one digit and a leading zero, as in
      "007", is not canonical and so reads as a Double. */
  lemma LeadingZeroIsDouble(ds: string)
    requires AllDigits(ds) && |ds| >= 2 && ds[0] == '0'
    ensures Atom(ds) == Ok(Double)
  {
    DecimalShape(ToI(ds));
    Lexer.LineWhole(ds);
  }

  /** A '+' before the digits, as in "+5", reads as a Double. */
  lemma PlusSignIsDouble(ds: string)
    requires AllDigits(ds) && ds != []
    ensures Atom("+" + ds) == Ok(Double)
  {
    DecimalShape(ToI("+" + ds));
    Lexer.LineWhole("+" + ds);
    assert ("+" + ds)[1..] == ds;
  }

  /** "-0" is not what `Integer#to_s` writes, so it reads as a Double. */
  lemma NegativeZeroIsDouble()
    ensures Atom("-0") == Ok(Double)
  {
    DecimalShape(ToI("-0"));
    Lexer.LineWhole("-0");
    assert "-0"[1..] == "0";
  }

  /** Digits, a point and at least one digit read as a Double. */
  lemma FractionIsDouble(a: string, b: string)
    requires AllDigits(a) && AllDigits(b) && b != []
    ensures Atom(a + "." + b) == Ok(Double)
  {
    var t := a + "." + b;
    DecimalShape(ToI(t));
    assert t[|a|] == '.';
    assert t[..|a|] == a && t[|a| + 1..] == b;
    Lexer.LineWhole(t);
    if t[0] == '-' || t[0] == '+' {
      assert false;
    }
  }

  /** Any token that mentions `true` or `false` and has no digit is a
      Boolean keeping its whole text, quotes included:
      "\"true story\"" is one. */
  lemma BooleanByInfix(tok: string)
    requires !HasDigit(tok)
    requires IsBool(tok)
    ensures Atom(tok) == Ok(Boolean(tok))
  {
    if IsFixnum(tok) {
      DecimalHasDigit(ToI(tok));
    }
    if IsDouble(tok) {
      DoubleHasDigit(tok);
    }
  }

  lemma TrueStoryIsBoolean()
    ensures Atom("\"true story\"") == Ok(Boolean("\"true story\""))
  {
    var t := "\"true story\"";
    assert t[1..][..4] == "true";
    assert HasInfix(t[1..], "true");
    assert !HasDigit(t) by {
      forall i | 0 <= i < |t| ensures !IsDigit(t[i]) { }
    }
    BooleanByInfix(t);
  }

  predicate IsLetter(c: char) {
    ('a' <= c <= 'z') || ('A' <= c <= 'Z')
  }

  /** A dotted name made of letters that does not mention `true` or `false`
      is a Symbol, since `is_symbol?` needs only one word character: so
      "a.b" is a Symbol. */
  lemma DottedNameIsSymbol(tok: string)
    requires forall i :: 0 <= i < |tok| ==> IsLetter(tok[i]) || tok[i] == '.'
    requires tok != [] && IsLetter(tok[0])
    requires !IsBool(tok)
    ensures Atom(tok) == Ok(Symbol(tok))
  {
    if IsFixnum(tok) {
      DecimalHasDigit(ToI(tok));
    }
    if IsDouble(tok) {
      DoubleHasDigit(tok);
    }
    if IsChar(tok) {
      CharHasHash(tok);
    }
    assert !IsString(tok) by {
      forall i, j | 0 <= i < j < |tok| ensures !QuotedSpan(tok, i, j) {
        assert !IsQuote(tok[i]);
      }
    }
    assert IsSymbolChar(tok[0]);
  }

  lemma AbIsSymbol()
    ensures Atom("a.b") == Ok(Symbol("a.b"))
  {
    assert !HasInfix("a.b", "true") && !HasInfix("a.b", "false");
    DottedNameIsSymbol("a.b");
  }

  /** Tokens made only of characters no test looks for are rejected; the
      quoting tokens '`', ',' and ',@' are among them, since the quote table
      knows only "'". */
  lemma QuasiquoteTokensUnknown()
    ensures Atom("`") == Err(UnknownType)
    ensures Atom(",") == Err(UnknownType)
    ensures Atom(",@") == Err(UnknownType)
    ensures Atom("") == Err(UnknownType)
  {
    NoTestMatches("`");
    NoTestMatches(",");
    NoTestMatches(",@");
    NoTestMatches("");
  }

  /** A token with no quote and no character `is_symbol?` looks for has no
      type. */
  lemma NoTestMatches(tok: string)
    requires forall i :: 0 <= i < |tok| ==> !IsQuote(tok[i]) && !IsSymbolChar(tok[i])
    ensures Atom(tok) == Err(UnknownType)
  {
    UnknownTypeExactly(tok);
    assert !IsString(tok) by {
      forall i, j | 0 <= i < j < |tok| ensures !QuotedSpan(tok, i, j) {
        assert !IsQuote(tok[i]);
      }
    }
  }
}
