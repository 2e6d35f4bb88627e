/** The tokenizer of `Warp::STDInport` in string mode (main.rb:4, main.rb:19-38).

    TOKENIZER is `\s*(TOKEN)(.*)`: after whitespace it captures one token and
    then everything up to the next newline. `Scan` is one such match, and
    `next_token` keeps only the second capture as the text still to read.
    Ruby's `.` does not match a newline, so whatever follows the first newline
    after a token is dropped; `Line` models that. */
module Lexer {
  import opened Base

  /** Ruby's `\s`: space, tab, newline, carriage return, form feed, vertical tab. */
  predicate IsSpace(c: char) {
    c == ' ' || c == '\t' || c == '\n' || c == '\r' || c == '\U{000C}' || c == '\U{000B}'
  }

  /** The one-character tokens `(`, `'`, backtick, `,` and `)`. */
  predicate IsPunct(c: char) {
    c in "('`,)"
  }

  /** Characters a bare run stops at: the class `[\s('"`,;)]`. */
  predicate IsDelimiter(c: char) {
    IsSpace(c) || c in "('\"`,;)"
  }

  /** Drops the leading `\s*`. */
  function SkipSpace(s: string): (t: string)
    ensures |t| <= |s| && t == s[|s| - |t|..]
    ensures forall i :: 0 <= i < |s| - |t| ==> IsSpace(s[i])
    ensures t == [] || !IsSpace(t[0])
  {
    if s != [] && IsSpace(s[0]) then SkipSpace(s[1..]) else s
  }

  /** What `(.*)` or `;.*` takes: the text before the first newline. */
  function Line(s: string): (l: string)
    ensures |l| <= |s| && l == s[..|l|]
    ensures '\n' !in l
    ensures |l| < |s| ==> s[|l|] == '\n'
  {
    if s == [] || s[0] == '\n' then [] else [s[0]] + Line(s[1..])
  }

  /** The alternative `"(?:[\\].|[^\\"])*"` scanned from index `i` of `t`,
      just after an opening quote: the index after the closing quote, or
      None when the literal is not terminated. */
  function LiteralEnd(t: string, i: nat): (r: Option<nat>)
    decreases |t| - i
    ensures r.Some? ==> i < r.value <= |t| && t[r.value - 1] == '"'
  {
    if i >= |t| then None
    else if t[i] == '"' then Some(i + 1)
    else if t[i] == '\\' then
      if i + 1 < |t| && t[i + 1] != '\n' then LiteralEnd(t, i + 2) else None
    else LiteralEnd(t, i + 1)
  }

  /** Length of the alternative `[^\s('"`,;)]*`: the maximal bare run. */
  function RunLength(t: string): (n: nat)
    ensures n <= |t|
    ensures forall i :: 0 <= i < n ==> !IsDelimiter(t[i])
    ensures n == |t| || IsDelimiter(t[n])
  {
    if t != [] && !IsDelimiter(t[0]) then 1 + RunLength(t[1..]) else 0
  }

  /** A token and the text the next call will scan. */
  datatype Lexeme = Lexeme(token: string, rest: string)

  /** Length of the token captured at the head of `t` (whitespace already
      skipped); the alternatives are tried in the regex's order: `,@`, a
      punctuation character, a string literal, a comment, a bare run
      (possibly empty). */
  function TokenLength(t: string): (n: nat)
    ensures n <= |t|
  {
    if |t| >= 2 && t[0] == ',' && t[1] == '@' then 2
    else if t != [] && IsPunct(t[0]) then 1
    else if t != [] && t[0] == '"' && LiteralEnd(t, 1).Some? then LiteralEnd(t, 1).value
    else if t != [] && t[0] == ';' then |Line(t)|
    else RunLength(t)
  }

  /** One match of TOKENIZER at the start of `s`: the first capture and the
      `(.*)` capture after it. */
  function Scan(s: string): (x: Lexeme)
    ensures '\n' !in x.rest
  {
    var t := SkipSpace(s);
    var n := TokenLength(t);
    Lexeme(t[..n], Line(t[n..]))
  }

  /** `next_token` on a cursor `s`: when the captured token is empty it
      returns '' if the following scan leaves nothing, and otherwise calls
      itself on the same state again, which never ends (see
      UnterminatedFixedPoint). */
  function Next(s: string): (r: Result<Lexeme>)
    ensures r.Ok? ==> r.value == Scan(s)
    ensures r.Ok? && r.value.token == "" ==> r.value.rest == ""
    ensures r.Ok? && r.value.token != "" ==> |r.value.rest| < |s|
    ensures r.Err? <==> Scan(s).token == "" && Scan(s).rest != ""
  {
    var x := Scan(s);
    EmptyTokenRest(s);
    ScanProgress(s);
    if x.token != "" then Ok(x)
    else if Scan(x.rest).rest == "" then Ok(x)
    else Err(NeverReturns)
  }

  // ----- token shapes -----

  /** `,@` or one of `(`, `'`, backtick, `,`, `)`. */
  predicate IsMarker(tok: string) {
    tok == ",@" || (|tok| == 1 && IsPunct(tok[0]))
  }

  /** The body of a string literal: characters other than `"` and `\`, or a
      backslash followed by any character but a newline. */
  predicate EscapedBody(b: string) {
    b == []
    || (b[0] == '\\' && |b| >= 2 && b[1] != '\n' && EscapedBody(b[2..]))
    || (b[0] != '\\' && b[0] != '"' && EscapedBody(b[1..]))
  }

  predicate IsStringLiteral(tok: string) {
    |tok| >= 2 && tok[0] == '"' && tok[|tok| - 1] == '"' && EscapedBody(tok[1..|tok| - 1])
  }

  predicate IsComment(tok: string) {
    tok != [] && tok[0] == ';' && '\n' !in tok
  }

  predicate IsRun(tok: string) {
    tok != [] && forall i :: 0 <= i < |tok| ==> !IsDelimiter(tok[i])
  }

  lemma {:induction false} LiteralEndBody(t: string, i: nat)
    requires LiteralEnd(t, i).Some?
    ensures EscapedBody(t[i..LiteralEnd(t, i).value - 1])
    decreases |t| - i
  {
    var n := LiteralEnd(t, i).value;
    if t[i] == '"' {
      assert t[i..n - 1] == [];
    } else if t[i] == '\\' {
      LiteralEndBody(t, i + 2);
      assert t[i..n - 1][2..] == t[i + 2..n - 1];
    } else {
      LiteralEndBody(t, i + 1);
      assert t[i..n - 1][1..] == t[i + 1..n - 1];
    }
  }

  /** A literal that closes within a prefix closes at the same place in the
      whole text. */
  lemma {:induction false} LiteralEndPrefix(u: string, t: string, i: nat)
    requires |u| <= |t| && u == t[..|u|]
    requires LiteralEnd(u, i).Some?
    ensures LiteralEnd(t, i) == LiteralEnd(u, i)
    decreases |u| - i
  {
    assert u[i] == t[i];
    if u[i] == '"' {
    } else if u[i] == '\\' {
      assert u[i + 1] == t[i + 1];
      LiteralEndPrefix(u, t, i + 2);
    } else {
      LiteralEndPrefix(u, t, i + 1);
    }
  }

  /** The token is empty exactly at the end of the input or at an opening
      quote that is never closed. */
  lemma TokenEmpty(t: string)
    requires t == [] || !IsSpace(t[0])
    ensures TokenLength(t) == 0 <==> t == [] || (t[0] == '"' && LiteralEnd(t, 1).None?)
  {
    if t != [] && t[0] == ';' {
      assert Line(t) != [];
    }
  }

  lemma EmptyTokenCases(s: string)
    ensures Scan(s).token == "" <==>
      (SkipSpace(s) == [] || (SkipSpace(s)[0] == '"' && LiteralEnd(SkipSpace(s), 1).None?))
    ensures SkipSpace(s) == [] ==> Scan(s) == Lexeme("", "")
  {
    var t := SkipSpace(s);
    TokenEmpty(t);
    assert |Scan(s).token| == TokenLength(t);
  }

  /** A non-empty token consumes input. */
  lemma ScanProgress(s: string)
    ensures Scan(s).token != "" ==> |Scan(s).rest| < |s|
  {
  }

  /** On an unterminated string literal the remainder scans to itself, so the
      recursive call in `next_token` sees the same state forever. */
  lemma UnterminatedFixedPoint(s: string)
    requires Scan(s).token == "" && Scan(s).rest != ""
    ensures Scan(Scan(s).rest) == Scan(s)
  {
    var t := SkipSpace(s);
    EmptyTokenCases(s);
    assert t[0] == '"' && LiteralEnd(t, 1).None?;
    assert TokenLength(t) == 0;
    var r := Scan(s).rest;
    assert t[0..] == t;
    assert r == Line(t);
    assert r[0] == '"';
    if LiteralEnd(r, 1).Some? {
      LiteralEndPrefix(r, t, 1);
    }
    UnterminatedScan(r);
  }

  /** An unterminated literal on a single line scans to an empty token and
      itself. */
  lemma UnterminatedScan(r: string)
    requires r != [] && r[0] == '"' && LiteralEnd(r, 1).None? && '\n' !in r
    ensures Scan(r) == Lexeme("", r)
  {
    QuoteStartsToken(r);
    LineWhole(r);
    assert r[0..] == r && r[..0] == "";
  }

  /** A `"` is not skipped as space, and an unterminated one captures
      nothing. */
  lemma QuoteStartsToken(r: string)
    requires r != [] && r[0] == '"' && LiteralEnd(r, 1).None?
    ensures SkipSpace(r) == r && TokenLength(r) == 0
  {
    assert !IsSpace(r[0]) && !IsPunct(r[0]) && r[0] != ';';
  }

  /** The test `next_token` makes on an empty token (is the next remainder
      empty?) holds exactly when the input is used up. */
  lemma EmptyTokenRest(s: string)
    ensures Scan(s).token == "" ==> (Scan(Scan(s).rest).rest == "" <==> Scan(s).rest == "")
  {
    EmptyTokenCases(s);
    if Scan(s).token == "" && Scan(s).rest != "" {
      UnterminatedFixedPoint(s);
    }
  }

  /** The kinds of token TOKENIZER can capture at the head of `t`: `,` only
      where `,@` does not match, a comment running to the end of the line,
      and a bare run maximal. */
  predicate TokenShape(tok: string, t: string)
    requires |tok| <= |t|
  {
    (IsMarker(tok) && (tok == "," ==> |t| < 2 || t[1] != '@'))
    || IsStringLiteral(tok)
    || (IsComment(tok) && tok == Line(t))
    || (IsRun(tok) && (|tok| == |t| || IsDelimiter(t[|tok|])))
  }

  lemma TokenShapeAt(t: string)
    requires t == [] || !IsSpace(t[0])
    ensures var n := TokenLength(t);
      && (n == 0 ==> t == [] || t[0] == '"')
      && (n > 0 ==> TokenShape(t[..n], t))
  {
    var n := TokenLength(t);
    TokenEmpty(t);
    if |t| >= 2 && t[0] == ',' && t[1] == '@' {
      assert t[..n] == ",@";
    } else if t != [] && IsPunct(t[0]) {
      assert t[..n] == [t[0]];
    } else if t != [] && t[0] == '"' && LiteralEnd(t, 1).Some? {
      LiteralEndBody(t, 1);
      assert t[..n][1..n - 1] == t[1..n - 1];
    } else if t != [] && t[0] == ';' {
      assert t[..n] == Line(t);
      assert IsComment(t[..n]);
    } else if n > 0 {
      assert IsRun(t[..n]);
    }
  }

  /** After leading whitespace each scan yields one of the token shapes (or
      nothing, at the end or at an unterminated quote); the token is the text
      that follows the whitespace and the remainder is the rest of that line. */
  lemma ScanShape(s: string)
    ensures var t, x := SkipSpace(s), Scan(s);
      && |x.token| <= |t| && t[..|x.token|] == x.token
      && x.rest == Line(t[|x.token|..])
      && (x.token == "" ==> t == [] || t[0] == '"')
      && (x.token != "" ==> TokenShape(x.token, t))
  {
    TokenShapeAt(SkipSpace(s));
  }

  lemma LineWhole(u: string)
    requires '\n' !in u
    ensures Line(u) == u
  {
    if |Line(u)| < |u| {
      assert u[|Line(u)|] == '\n';
    }
  }

  lemma NoNewlineSuffix(s: string, j: nat)
    requires '\n' !in s && j <= |s|
    ensures '\n' !in s[j..]
  {
    forall i | 0 <= i < |s| - j ensures s[j..][i] != '\n' {
      assert s[j..][i] == s[j + i];
    }
  }

  lemma SplitThree(s: string, k: nat, n: nat)
    requires k + n <= |s|
    ensures s == s[..k] + s[k..][..n] + s[k..][n..]
  {
    assert s[k..] == s[k..][..n] + s[k..][n..];
    assert s == s[..k] + s[k..];
  }

  /** On text without newlines nothing is dropped: the input is whitespace,
      then the token, then the remainder. */
  lemma ScanSplits(s: string)
    requires '\n' !in s
    ensures var x := Scan(s);
      exists k :: 0 <= k <= |s| && s == s[..k] + x.token + x.rest
        && forall i :: 0 <= i < k ==> IsSpace(s[i])
  {
    var t := SkipSpace(s);
    var k := |s| - |t|;
    var n := TokenLength(t);
    NoNewlineSuffix(s, k);
    NoNewlineSuffix(t, n);
    LineWhole(t[n..]);
    SplitThree(s, k, n);
    assert Scan(s) == Lexeme(t[..n], t[n..]);
  }

  // ----- facts used by the reader round trip -----

  lemma ScanSkipsSpace(c: char, s: string)
    requires IsSpace(c)
    ensures Scan([c] + s) == Scan(s)
  {
    assert ([c] + s)[1..] == s;
  }

  /** A punctuation character is a whole token; `,` only when no `@`
      follows it. */
  lemma ScanPunct(c: char, s: string)
    requires IsPunct(c)
    requires c == ',' ==> s == [] || s[0] != '@'
    requires '\n' !in s
    ensures Scan([c] + s) == Lexeme([c], s)
  {
    var t := [c] + s;
    assert t[0] == c && !IsSpace(c);
    assert SkipSpace(t) == t;
    assert |t| >= 2 ==> t[1] == s[0];
    assert !(|t| >= 2 && t[0] == ',' && t[1] == '@');
    assert TokenLength(t) == 1;
    assert t[1..] == s && t[..1] == [c];
    LineWhole(s);
    assert Scan(t) == Lexeme(t[..1], Line(t[1..]));
  }

  /** `,@` is tried before `,`: it is the token whatever follows it. */
  lemma ScanCommaAt(s: string)
    requires '\n' !in s
    ensures Scan(",@" + s) == Lexeme(",@", s)
  {
    var t := ",@" + s;
    assert t[0] == ',' && t[1] == '@';
    assert SkipSpace(t) == t;
    assert TokenLength(t) == 2;
    assert t[..2] == ",@" && t[2..] == s;
    LineWhole(s);
  }

  /** A comment takes the whole line: nothing is left to scan after it. */
  lemma ScanComment(c: string)
    requires '\n' !in c
    ensures Scan(";" + c) == Lexeme(";" + c, "")
  {
    var t := ";" + c;
    assert t[0] == ';';
    assert SkipSpace(t) == t;
    assert '\n' !in t by {
      forall i | 0 <= i < |t| ensures t[i] != '\n' {
        if i > 0 { assert t[i] == c[i - 1]; }
      }
    }
    LineWhole(t);
    assert TokenLength(t) == |t|;
    assert t[..|t|] == t && t[|t|..] == [];
  }

  lemma ScanRun(w: string, s: string)
    requires IsRun(w)
    requires '\n' !in s
    requires s == [] || IsDelimiter(s[0])
    ensures Scan(w + s) == Lexeme(w, s)
  {
    var t := w + s;
    assert t[0] == w[0];
    assert SkipSpace(t) == t;
    var n := RunLength(t);
    assert forall i :: 0 <= i < |w| ==> t[i] == w[i];
    assert |w| < |t| ==> t[|w|] == s[0];
    assert n == |w|;
    assert TokenLength(t) == n;
    assert t[..n] == w && t[n..] == s;
    LineWhole(s);
  }

  /** A literal with no quote or backslash inside closes at the next quote. */
  lemma {:induction false} LiteralEndPlain(t: string, i: nat, j: nat)
    requires i <= j < |t| && t[j] == '"'
    requires forall k :: i <= k < j ==> t[k] != '"' && t[k] != '\\'
    ensures LiteralEnd(t, i) == Some(j + 1)
    decreases j - i
  {
    if i < j {
      LiteralEndPlain(t, i + 1, j);
    }
  }

  /** A string literal with no quote or backslash inside is one token,
      whatever follows it on the line. */
  lemma ScanLiteral(w: string, s: string)
    requires |w| >= 2 && w[0] == '"' && w[|w| - 1] == '"'
    requires forall k :: 0 < k < |w| - 1 ==> w[k] != '"' && w[k] != '\\'
    requires '\n' !in s
    ensures Scan(w + s) == Lexeme(w, s)
  {
    var t := w + s;
    assert t[0] == '"';
    assert SkipSpace(t) == t;
    LiteralEndPlain(t, 1, |w| - 1);
    assert TokenLength(t) == |w|;
    assert t[..|w|] == w && t[|w|..] == s;
    LineWhole(s);
  }

  /** `Warp::STDInport` in string mode: the cursor is the text the next match
      of TOKENIZER runs on (the constructor's `@initial`, then each `@line`). */
  class InPort {
    var rest: string

    constructor (input: string)
      ensures rest == input
    {
      rest := input;
    }

    /** `next_token`: consumes one token. */
    method NextToken() returns (r: Result<string>)
      modifies this
      ensures Next(old(rest)).Ok? ==> r == Ok(Next(old(rest)).value.token) && rest == Next(old(rest)).value.rest
      ensures Next(old(rest)).Err? ==> r == Err(NeverReturns)
    {
      var x := Scan(rest);
      rest := x.rest;
      if x.token == "" {
        var again := Scan(rest);
        if again.rest == "" {
          r := Ok("");
        } else {
          r := Err(NeverReturns);
        }
      } else {
        r := Ok(x.token);
      }
    }
  }
}
