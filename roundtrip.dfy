/** What reading promises about the token stream, and the round trip
    between `write` (`to_s`, main.rb:556-562) and `read` (main.rb:84-87) for
    the values whose printed form the reader can take back: integers, the
    Booleans `true` and `false`, non-empty plain strings, plain symbols and
    lists of them. */
module RoundTrip {
  import opened Base
  import opened Numerals
  import opened Values
  import opened Lexer
  import opened Classify
  import opened Reader

  // ----- reading from the token stream -----

  /** `next_token`, and hence the reader, skips leading whitespace. */
  lemma ReadSeqSkipsSpace(c: char, s: string, acc: seq<Value>)
    requires IsSpace(c)
    ensures Next([c] + s) == Next(s)
    ensures ReadSeq([c] + s, acc) == ReadSeq(s, acc)
  {
    NextSkipsSpace(c, s);
    ReadSeqSameNext([c] + s, s, acc);
  }

  /** The list reader looks at its cursor only through `Next`. */
  lemma ReadSeqSameNext(c1: string, c2: string, acc: seq<Value>)
    requires Next(c1) == Next(c2)
    ensures ReadSeq(c1, acc) == ReadSeq(c2, acc)
  {
  }

  lemma NextSkipsSpace(c: char, s: string)
    requires IsSpace(c)
    ensures Next([c] + s) == Next(s)
  {
    ScanSkipsSpace(c, s);
  }

  lemma AppendHead<T>(acc: seq<T>, xs: seq<T>)
    requires xs != []
    ensures acc + [xs[0]] + xs[1..] == acc + xs
    ensures |xs| == 1 ==> acc + xs == acc + [xs[0]]
  {
    assert [xs[0]] + xs[1..] == xs;
  }

  lemma ScanEmpty()
    ensures Scan("") == Lexeme("", "")
  {
  }

  lemma ReadSeqEmpty(acc: seq<Value>)
    ensures ReadSeq("", acc) == Err(UnbalancedParens)
  {
    ScanEmpty();
  }

  lemma NextNonEmpty(s: string, x: Lexeme)
    requires Scan(s) == x && x.token != ""
    ensures Next(s) == Ok(x)
  {
  }

  lemma ReadSeqClose(c: string, rest: string, acc: seq<Value>)
    requires Scan(c) == Lexeme(")", rest)
    ensures ReadSeq(c, acc) == Ok(Parsed(List(Flatten(acc)), rest))
  {
    NextNonEmpty(c, Lexeme(")", rest));
  }

  lemma ReadSeqItem(c: string, tok: string, rest: string, acc: seq<Value>, v: Value, after: string)
    requires Scan(c) == Lexeme(tok, rest) && tok != "" && tok != ")"
    requires ReadForm(tok, rest) == Ok(Parsed(v, after))
    ensures ReadSeq(c, acc) == ReadSeq(after, acc + [v])
  {
    NextNonEmpty(c, Lexeme(tok, rest));
  }

  lemma ReadFormOpen(c: string)
    ensures ReadForm("(", c) == ReadSeq(c, [])
  {
  }

  lemma ReadFormAtom(tok: string, c: string)
    requires tok != "(" && tok != ")" && tok != "'"
    ensures Atom(tok).Ok? ==> ReadForm(tok, c) == Ok(Parsed(Atom(tok).value, c))
  {
  }

  /** The first element of a quoted form is the symbol `quote`. */
  lemma QuoteIsSymbol()
    ensures Atom("quote") == Ok(Symbol("quote"))
  {
    var t := "quote";
    assert !HasInfix(t, "true") by {
      assert t[..4] != "true";
      assert t[1..] == "uote" && "uote"[..4] != "true";
      NoInfixHere("uote", "true");
    }
    assert !HasInfix(t, "false") by {
      assert t[..5] != "false";
      ShortNoInfix(t[1..], "false");
    }
    DottedNameIsSymbol(t);
  }

  /** The reader macro `'` stands for the symbol `quote`. */
  lemma QuoteAtom()
    ensures "'" in Quotes && Atom(Quotes["'"]) == Ok(Symbol("quote"))
  {
    assert Quotes["'"] == "quote";
    QuoteIsSymbol();
  }

  /** After a reader macro, `read_ahead` reads the next form and puts the
      macro's symbol before it. */
  lemma ReadFormMacro(tok: string, c: string)
    requires tok in Quotes && Atom(Quotes[tok]).Ok?
    ensures ReadNext(c).Ok? ==>
      ReadForm(tok, c) == Ok(Parsed(List(Flatten([Atom(Quotes[tok]).value, ReadNext(c).value.value])), ReadNext(c).value.rest))
    ensures ReadNext(c).Err? ==> ReadForm(tok, c) == Err(ReadNext(c).error)
  {
    MacroToken(tok, c);
    MacroReads(tok, c);
  }

  /** A reader macro token is neither parenthesis. */
  lemma MacroToken(tok: string, c: string)
    requires tok in Quotes
    ensures ReadForm(tok, c) == ReadMacro(tok, c)
  {
    assert tok == "'";
  }

  lemma MacroReads(tok: string, c: string)
    requires tok in Quotes && Atom(Quotes[tok]).Ok?
    ensures ReadNext(c).Ok? ==>
      ReadMacro(tok, c) == Ok(Parsed(List(Flatten([Atom(Quotes[tok]).value, ReadNext(c).value.value])), ReadNext(c).value.rest))
    ensures ReadNext(c).Err? ==> ReadMacro(tok, c) == Err(ReadNext(c).error)
  {
  }

  /** After a `'` token, `read_ahead` reads the next form and wraps it. */
  lemma ReadFormQuote(c: string)
    ensures ReadNext(c).Ok? ==> ReadForm("'", c) == Ok(Parsed(List([Symbol("quote"), ReadNext(c).value.value]), ReadNext(c).value.rest))
    ensures ReadNext(c).Err? ==> ReadForm("'", c) == Err(ReadNext(c).error)
  {
    QuoteAtom();
    ReadFormQuoteAt("'", c);
  }

  lemma ReadFormQuoteAt(tok: string, c: string)
    requires tok in Quotes && Atom(Quotes[tok]) == Ok(Symbol("quote"))
    ensures ReadNext(c).Ok? ==> ReadForm(tok, c) == Ok(Parsed(List([Symbol("quote"), ReadNext(c).value.value]), ReadNext(c).value.rest))
    ensures ReadNext(c).Err? ==> ReadForm(tok, c) == Err(ReadNext(c).error)
  {
    var n := ReadNext(c);
    ReadFormMacro(tok, c);
    if n.Ok? {
      FlattenNoSeq([Symbol("quote"), n.value.value]);
    }
  }

  /** A lone `)` is an error: 'Unexpected )'. */
  lemma CloseFirstFails(s: string)
    requires '\n' !in s
    ensures ReadString(")" + s) == Err(UnexpectedClose)
  {
    ScanPunct(')', s);
    NextNonEmpty(")" + s, Lexeme(")", s));
  }

  /** `'F` reads as the two-element list `(quote F)`, and fails as `F` does. */
  lemma QuoteReadsAsQuoteForm(s: string)
    requires '\n' !in s
    ensures ReadNext(s).Ok? ==> ReadString("'" + s) == Ok(List([Symbol("quote"), ReadNext(s).value.value]))
    ensures ReadNext(s).Err? ==> ReadString("'" + s) == Err(ReadNext(s).error)
  {
    ScanPunct('\'', s);
    NextNonEmpty("'" + s, Lexeme("'", s));
    ReadFormQuote(s);
  }

  // ----- printable values -----

  /** A symbol name the writer prints and the reader reads back as that
      symbol: a bare run that no earlier classifier claims and that holds a
      character `is_symbol?` looks for. */
  predicate SafeName(name: string) {
    IsRun(name) && '\0' !in name
    && !IsFixnum(name) && !IsDouble(name) && !IsBool(name) && !IsChar(name) && IsSymbol(name)
  }

  /** The text of a String the writer prints between quotes and the reader
      reads back as that String: a non-empty plain literal that neither
      `is_bool?` nor `is_char?` claims. */
  predicate SafeText(t: string) {
    var w := "\"" + t + "\"";
    t != [] && IsPlainLiteral(w) && !IsBool(w) && !IsChar(w)
  }

  predicate Printable(v: Value) {
    match v
    case Fixnum(_) => true
    case Boolean(t) => t == "true" || t == "false"
    case Str(t) => SafeText(t)
    case Symbol(name) => SafeName(name)
    case List(xs) => forall i :: 0 <= i < |xs| ==> Printable(xs[i])
    case _ => false
  }

  /** The printed form of a printable value: a list is its items separated by
      single spaces inside parentheses. */
  function Text(v: Value): (t: string)
    requires Printable(v)
    ensures t != [] && '\n' !in t && !IsStripped(t[|t| - 1])
  {
    match v
    case Fixnum(n) => Decimal(n)
    case Boolean(t) => t
    case Str(t) => "\"" + t + "\""
    case Symbol(name) => name
    case List(xs) => "(" + Joined(xs) + ")"
  }

  function Joined(xs: seq<Value>): (t: string)
    requires forall i :: 0 <= i < |xs| ==> Printable(xs[i])
    ensures '\n' !in t
    ensures xs != [] ==> t != [] && !IsStripped(t[|t| - 1])
  {
    if xs == [] then ""
    else if |xs| == 1 then Text(xs[0])
    else Text(xs[0]) + " " + Joined(xs[1..])
  }

  lemma TrimEndSpace(u: string)
    requires u != [] && !IsStripped(u[|u| - 1])
    ensures TrimEnd(u + " ") == u
  {
    assert (u + " ")[..|u|] == u;
  }

  /** `to_s` of a printable value is its printed form. */
  lemma {:induction false} WriteText(v: Value)
    requires Printable(v)
    ensures ToS(v) == Ok(Some(Text(v)))
    decreases v
  {
    if v.List? && v.items != [] {
      var xs := v.items;
      ItemsTextJoined(xs);
      TrimEndSpace("(" + Joined(xs));
      assert "(" + (Joined(xs) + " ") == ("(" + Joined(xs)) + " ";
    } else if v.List? {
      assert Text(v) == "()";
    }
  }

  /** The `reduce` in `List#to_s` writes each item followed by a space. */
  lemma {:induction false} ItemsTextJoined(xs: seq<Value>)
    requires xs != []
    requires forall i :: 0 <= i < |xs| ==> Printable(xs[i])
    ensures ItemsText(xs) == Ok(Joined(xs) + " ")
    decreases xs
  {
    WriteText(xs[0]);
    if |xs| > 1 {
      ItemsTextJoined(xs[1..]);
      assert Text(xs[0]) + " " + (Joined(xs[1..]) + " ") == Text(xs[0]) + " " + Joined(xs[1..]) + " ";
    } else {
      assert ItemsText(xs[1..]) == Ok("");
      assert Interpolate(xs[0]) == Ok(Text(xs[0]));
      assert Text(xs[0]) + " " + "" == Joined(xs) + " ";
    }
  }

  /** The first token of a printed value followed by a delimiter, and what
      `read_ahead` makes of it: the value, with the delimiter and the rest
      left on the cursor. */
  predicate ReadsBack(v: Value, c: string, s: string) {
    var x := Scan(c);
    x.token != "" && x.token != ")" && ReadForm(x.token, x.rest) == Ok(Parsed(v, s))
  }

  lemma FixnumReadsBack(k: int, s: string)
    requires '\n' !in s
    requires s == [] || IsDelimiter(s[0])
    ensures ReadsBack(Fixnum(k), Decimal(k) + s, s)
  {
    var w := Decimal(k);
    assert IsRun(w) by {
      forall i | 0 <= i < |w| ensures !IsDelimiter(w[i]) {
        assert IsDigit(w[i]) || w[i] == '-';
      }
    }
    ScanRun(w, s);
    assert w[0] == '-' || IsDigit(w[0]);
    FixnumTokens(w, k);
    ReadFormAtom(w, s);
  }

  lemma BooleanReadsBack(t: string, s: string)
    requires t == "true" || t == "false"
    requires '\n' !in s
    requires s == [] || IsDelimiter(s[0])
    ensures ReadsBack(Boolean(t), t + s, s)
  {
    assert IsRun(t) && !HasDigit(t) by {
      forall i | 0 <= i < |t| ensures !IsDelimiter(t[i]) && !IsDigit(t[i]) {
        assert 'a' <= t[i] <= 'z';
      }
    }
    assert IsBool(t) by {
      assert t[..|t|] == t;
    }
    ScanRun(t, s);
    BooleanByInfix(t);
    ReadFormAtom(t, s);
  }

  lemma StrReadsBack(t: string, s: string)
    requires SafeText(t)
    requires '\n' !in s
    ensures ReadsBack(Str(t), "\"" + t + "\"" + s, s)
  {
    var w := "\"" + t + "\"";
    ScanLiteral(w, s);
    PlainLiteralIsStr(w);
    assert w[1..|w| - 1] == t;
    ReadFormAtom(w, s);
  }

  lemma SymbolReadsBack(name: string, s: string)
    requires SafeName(name)
    requires '\n' !in s
    requires s == [] || IsDelimiter(s[0])
    ensures ReadsBack(Symbol(name), name + s, s)
  {
    ScanRun(name, s);
    assert !IsDelimiter(name[0]);
    assert !IsString(name) by {
      forall i, j | 0 <= i < j < |name| ensures !QuotedSpan(name, i, j) {
        assert !IsDelimiter(name[i]);
      }
    }
    assert Atom(name) == Ok(Symbol(name));
    ReadFormAtom(name, s);
  }

  lemma {:induction false} ReadText(v: Value, s: string)
    requires Printable(v)
    requires '\n' !in s
    requires s == [] || IsDelimiter(s[0])
    ensures ReadsBack(v, Text(v) + s, s)
    decreases v, 2
  {
    match v
    case Fixnum(k) =>
      FixnumReadsBack(k, s);
    case Boolean(t) =>
      BooleanReadsBack(t, s);
    case Str(t) =>
      StrReadsBack(t, s);
    case Symbol(name) =>
      SymbolReadsBack(name, s);
    case List(xs) =>
      assert Text(v) == "(" + Joined(xs) + ")";
      AppendAssoc("(", Joined(xs), ")", s);
      ListReadsBack(xs, s);
  }

  lemma {:induction false} ListReadsBack(xs: seq<Value>, s: string)
    requires forall i :: 0 <= i < |xs| ==> Printable(xs[i])
    requires '\n' !in s
    ensures ReadsBack(List(xs), "(" + (Joined(xs) + (")" + s)), s)
    decreases xs, 4
  {
    var body := Joined(xs) + (")" + s);
    ScanPunct('(', body);
    ReadItems(xs, [], ")" + s);
    EmptyAppend(xs);
    ScanPunct(')', s);
    ReadSeqClose(")" + s, s, xs);
    PrintableFlat(xs);
    ReadFormOpen(body);
  }

  lemma EmptyAppend<T>(xs: seq<T>)
    ensures [] + xs == xs
  {
  }

  lemma PrintableFlat(xs: seq<Value>)
    requires forall i :: 0 <= i < |xs| ==> Printable(xs[i])
    ensures Flatten(xs) == xs
  {
    FlattenNoSeq(xs);
  }

  /** Reading one printed item inside a list moves on to what follows it. */
  lemma {:induction false} ReadSeqPrinted(x: Value, tail: string, acc: seq<Value>)
    requires Printable(x)
    requires '\n' !in tail
    requires tail == [] || IsDelimiter(tail[0])
    ensures ReadSeq(Text(x) + tail, acc) == ReadSeq(tail, acc + [x])
    decreases x, 3
  {
    ReadText(x, tail);
    var y := Scan(Text(x) + tail);
    ReadSeqItem(Text(x) + tail, y.token, y.rest, acc, x, tail);
  }

  /** The printed items of a list: the first item's text, then either
      nothing or a space and the others. */
  lemma JoinedHead(xs: seq<Value>, s: string)
    requires xs != []
    requires forall i :: 0 <= i < |xs| ==> Printable(xs[i])
    ensures |xs| == 1 ==> Joined(xs) + s == Text(xs[0]) + s
    ensures |xs| > 1 ==> Joined(xs) + s == Text(xs[0]) + (" " + (Joined(xs[1..]) + s))
  {
    if |xs| > 1 {
      assert Joined(xs) == Text(xs[0]) + " " + Joined(xs[1..]);
      AppendAssoc(Text(xs[0]), " ", Joined(xs[1..]), s);
    }
  }

  lemma AppendAssoc<T>(a: seq<T>, b: seq<T>, c: seq<T>, d: seq<T>)
    ensures a + b + c + d == a + (b + (c + d))
  {
  }

  /** Reading a list's printed items moves them, in order, onto the
      accumulator and stops at what follows them. */
  lemma {:induction false} ReadItems(xs: seq<Value>, acc: seq<Value>, s: string)
    requires forall i :: 0 <= i < |xs| ==> Printable(xs[i])
    requires '\n' !in s
    requires s == [] || IsDelimiter(s[0])
    ensures ReadSeq(Joined(xs) + s, acc) == ReadSeq(s, acc + xs)
    decreases xs, 3
  {
    if xs == [] {
      assert Joined(xs) + s == s;
      assert acc + xs == acc;
    } else if |xs| == 1 {
      ReadLastItem(xs, acc, s);
    } else {
      ReadManyItems(xs, acc, s);
    }
  }

  lemma {:induction false} ReadManyItems(xs: seq<Value>, acc: seq<Value>, s: string)
    requires |xs| > 1
    requires forall i :: 0 <= i < |xs| ==> Printable(xs[i])
    requires '\n' !in s
    requires s == [] || IsDelimiter(s[0])
    ensures ReadSeq(Joined(xs) + s, acc) == ReadSeq(s, acc + xs)
    decreases xs, 2
  {
    var more, acc1 := Joined(xs[1..]) + s, acc + [xs[0]];
    assert ReadSeq(Joined(xs) + s, acc) == ReadSeq(more, acc1) by {
      ReadFirstItem(xs, acc, s);
    }
    assert ReadSeq(more, acc1) == ReadSeq(s, acc1 + xs[1..]) by {
      ReadItems(xs[1..], acc1, s);
    }
    AppendHead(acc, xs);
  }

  lemma {:induction false} ReadLastItem(xs: seq<Value>, acc: seq<Value>, s: string)
    requires |xs| == 1 && Printable(xs[0])
    requires '\n' !in s
    requires s == [] || IsDelimiter(s[0])
    ensures ReadSeq(Joined(xs) + s, acc) == ReadSeq(s, acc + xs)
    decreases xs, 1
  {
    assert Joined(xs) == Text(xs[0]);
    ReadSeqPrinted(xs[0], s, acc);
    AppendHead(acc, xs);
  }

  lemma {:induction false} ReadFirstItem(xs: seq<Value>, acc: seq<Value>, s: string)
    requires |xs| > 1
    requires forall i :: 0 <= i < |xs| ==> Printable(xs[i])
    requires '\n' !in s
    ensures ReadSeq(Joined(xs) + s, acc) == ReadSeq(Joined(xs[1..]) + s, acc + [xs[0]])
    decreases xs, 1
  {
    var more := Joined(xs[1..]) + s;
    assert Joined(xs) + s == Text(xs[0]) + (" " + more);
    ReadSeqPrinted(xs[0], " " + more, acc);
    ReadSeqSkipsSpace(' ', more, acc + [xs[0]]);
  }

  /** With the input ending right after the items, the reader runs out of
      tokens before a `)`: 'Unbalanced parens'. */
  lemma ReadItemsOpen(xs: seq<Value>)
    requires forall i :: 0 <= i < |xs| ==> Printable(xs[i])
    ensures ReadSeq(Joined(xs), []) == Err(UnbalancedParens)
  {
    var j := Joined(xs);
    assert ReadSeq(j, []) == ReadSeq("", xs) by {
      ReadItems(xs, [], "");
      assert j + "" == j;
      EmptyAppend(xs);
    }
    ReadSeqEmpty(xs);
  }

  /** `read(write(v)) == v` for every printable value. */
  lemma ReadWrite(v: Value)
    requires Printable(v)
    ensures ToS(v) == Ok(Some(Text(v)))
    ensures ReadString(Text(v)) == Ok(v)
  {
    WriteText(v);
    ReadText(v, "");
    assert Text(v) + "" == Text(v);
    var x := Scan(Text(v));
    NextNonEmpty(Text(v), x);
  }

  /** Cutting the closing parenthesis off a printed list leaves input the
      reader rejects with 'Unbalanced parens'. */
  lemma MissingCloseUnbalanced(xs: seq<Value>)
    requires forall i :: 0 <= i < |xs| ==> Printable(xs[i])
    ensures ReadString("(" + Joined(xs)) == Err(UnbalancedParens)
  {
    ScanPunct('(', Joined(xs));
    NextNonEmpty("(" + Joined(xs), Lexeme("(", Joined(xs)));
    ReadItemsOpen(xs);
  }
}
