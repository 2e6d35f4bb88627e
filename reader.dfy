/** The reader: `read_ahead` and `read` (main.rb:42-87). `ReadForm` and
    `ReadSeq` say what reading produces from a lexer cursor; the methods
    `ReadAhead` and `Read` are the Ruby procedures, which pull tokens from an
    `InPort` and collect a list's items in a `while` loop, proved to agree
    with them. */
module Reader {
  import opened Base
  import opened Values
  import opened Lexer
  import opened Classify

  /** A value read and the cursor left after it. */
  datatype Parsed = Parsed(value: Value, rest: string)

  /** `QUOTES` (main.rb:42): the reader macros and the symbol each stands
      for. */
  const Quotes: map<string, string> := map["'" := "quote"]

  /** `read_ahead(inport, tok)` where the port's cursor is `c`. The name a
      quote token stands for is read by `read_ahead` again, which for a
      plain word is its atom. */
  function ReadForm(tok: string, c: string): (r: Result<Parsed>)
    ensures r.Ok? ==> |r.value.rest| <= |c|
    ensures r.Ok? ==> !r.value.value.Seq?
    decreases |c|, if tok == "" then 0 else 2
  {
    if tok == "(" then ReadSeq(c, [])
    else if tok == ")" then Err(UnexpectedClose)
    else if tok in Quotes then ReadMacro(tok, c)
    else
      var v :- Atom(tok);
      Ok(Parsed(v, c))
  }

  /** The quote branch of `read_ahead`: the symbol the macro stands for,
      then the next form, as a two-element List. */
  function ReadMacro(tok: string, c: string): (r: Result<Parsed>)
    requires tok in Quotes
    ensures r.Ok? ==> |r.value.rest| <= |c|
    ensures r.Ok? ==> r.value.value.List?
    decreases |c|, 1
  {
    var q :- Atom(Quotes[tok]);
    var x :- Next(c);
    var f :- ReadForm(x.token, x.rest);
    Ok(Parsed(List(Flatten([q, f.value])), f.rest))
  }

  /** The loop of `read_ahead` after a `(`: the items read so far are `acc`. */
  function ReadSeq(c: string, acc: seq<Value>): (r: Result<Parsed>)
    ensures r.Ok? ==> |r.value.rest| <= |c|
    ensures r.Ok? ==> r.value.value.List?
    decreases |c|, 1
  {
    var x :- Next(c);
    if x.token == ")" then Ok(Parsed(List(Flatten(acc)), x.rest))
    else if x.token == "" then Err(UnbalancedParens)
    else
      var item :- ReadForm(x.token, x.rest);
      ReadSeq(item.rest, acc + [item.value])
  }

  /** Reading the first form from a cursor: the next token, then `read_ahead`. */
  function ReadNext(c: string): (r: Result<Parsed>)
    ensures r.Ok? ==> !r.value.value.Seq?
  {
    var x :- Next(c);
    ReadForm(x.token, x.rest)
  }

  /** `read(raw)`: only the first form of the input is read. */
  function ReadString(raw: string): Result<Value> {
    var p :- ReadNext(raw);
    Ok(p.value)
  }

  /** The value part of a parse. */
  function ValueOf(r: Result<Parsed>): Result<Value> {
    if r.Ok? then Ok(r.value.value) else Err(r.error)
  }

  /** `read_ahead(inport, input)`. */
  method ReadAhead(port: InPort, input: string) returns (r: Result<Value>)
    modifies port
    decreases |port.rest|, if input == "" then 0 else 2
    ensures r == ValueOf(ReadForm(input, old(port.rest)))
    ensures r.Ok? ==> port.rest == ReadForm(input, old(port.rest)).value.rest
  {
    if input == "(" {
      r := ReadList(port);
    } else if input == ")" {
      r := Err(UnexpectedClose);
    } else if input in Quotes {
      r := ReadQuoted(port, input);
    } else {
      r := Atom(input);
    }
  }

  /** The `while` loop of `read_ahead` after a `(`: items are read until
      `)`, and running out of tokens first is an error. */
  method ReadList(port: InPort) returns (r: Result<Value>)
    modifies port
    decreases |port.rest|, 1
    ensures r == ValueOf(ReadSeq(old(port.rest), []))
    ensures r.Ok? ==> port.rest == ReadSeq(old(port.rest), []).value.rest
  {
    ghost var c0 := port.rest;
    var list: seq<Value> := [];
    while true
      invariant |port.rest| <= |c0|
      invariant ReadSeq(c0, []) == ReadSeq(port.rest, list)
      decreases |port.rest|
    {
      var nextone := port.NextToken();
      if nextone.Err? {
        r := Err(nextone.error);
        return;
      }
      if nextone.value == ")" {
        break;
      } else if nextone.value == "" {
        r := Err(UnbalancedParens);
        return;
      } else {
        var item := ReadAhead(port, nextone.value);
        if item.Err? {
          r := item;
          return;
        }
        list := list + [item.value];
      }
    }
    var l := NewList(list);
    r := Ok(l);
  }

  /** A reader macro: the symbol it stands for, then the next form, in a
      two-element List. */
  method ReadQuoted(port: InPort, input: string) returns (r: Result<Value>)
    requires input in Quotes
    modifies port
    decreases |port.rest|, 1
    ensures r == ValueOf(ReadForm(input, old(port.rest)))
    ensures r.Ok? ==> port.rest == ReadForm(input, old(port.rest)).value.rest
  {
    ghost var c0 := port.rest;
    MacroSteps(input, c0);
    var q :- Atom(Quotes[input]);
    var nextone := port.NextToken();
    if nextone.Err? {
      r := Err(nextone.error);
      return;
    }
    ghost var x := Next(c0).value;
    assert nextone.value == x.token && port.rest == x.rest;
    var f := ReadAhead(port, nextone.value);
    if f.Err? {
      r := f;
      return;
    }
    var l := NewList([q, f.value]);
    r := Ok(l);
  }

  /** `read_ahead` on a reader macro token takes the quote branch, one step
      at a time. */
  lemma MacroSteps(tok: string, c: string)
    requires tok in Quotes
    ensures var q := Atom(Quotes[tok]);
      ReadForm(tok, c) ==
        if q.Err? then Err(q.error)
        else if Next(c).Err? then Err(Next(c).error)
        else
          var x := Next(c).value;
          var f := ReadForm(x.token, x.rest);
          if f.Err? then Err(f.error) else Ok(Parsed(List(Flatten([q.value, f.value.value])), f.value.rest))
  {
    assert tok == "'";
  }

  /** `read(raw)`: a fresh port on the input, its first token, `read_ahead`. */
  method Read(raw: string) returns (r: Result<Value>)
    ensures r == ReadString(raw)
  {
    var inport := new InPort(raw);
    var first := inport.NextToken();
    if first.Err? {
      r := Err(first.error);
      return;
    }
    r := ReadAhead(inport, first.value);
  }
}
