/** The runtime values of `Warp::Model` (main.rb:89-299) together with the
    other Ruby objects the interpreter passes around: bare Arrays (what
    `List#cdr` and `(quote ...)` produce), `nil`, and the builtin lambdas. */
module Values {
  import opened Base
  import opened Numerals

  /** The lambdas bound in the root ENV (main.rb:380-514). */
  datatype Builtin =
    | Newline | ShowGlobals                          // '#:n' '#:g'
    | Add | Mul | Sub | Mod                          // + * - %
    | Less | Greater | Equal                         // < > =
    | Concat                                         // ++
    | BoolP | FixnumP | StrP | SymP | BoundP | DoubleP  // bool? fixnum? str? sym? bound? double?
    | StrCast | SymCast                              // str! sym!
    | Cons | Head | Tail | MakeList                  // cons head tail list

  datatype Value =
    | Fixnum(n: int)          // Warp::Model::Fixnum
    | Double                  // Warp::Model::Double; its Float is not modelled
    | Boolean(text: string)   // Warp::Model::Boolean keeps the token's whole text
    | Char(text: string)      // Warp::Model::Char
    | Str(text: string)       // Warp::Model::String: one Char per character of `text`
    | Symbol(name: string)    // Warp::Model::Symbol
    | List(items: seq<Value>) // Warp::Model::List
    | Seq(elems: seq<Value>)  // a bare Ruby Array
    | Nil                     // Ruby nil
    | Prim(op: Builtin)       // a builtin lambda

  /** `quoted?` (true for self-evaluating kinds, main.rb:105-107 and the
      other classes); None where Ruby has no such method. */
  function Quoted(v: Value): Option<bool> {
    match v
    case Fixnum(_) => Some(true)
    case Double => Some(true)
    case Boolean(_) => Some(true)
    case Char(_) => Some(true)
    case Str(_) => Some(true)
    case Symbol(_) => Some(false)
    case List(_) => Some(false)
    case _ => None
  }

  /** Ruby's `Array#flatten`: nested Arrays are spliced in at every depth;
      Warp values, Lists included, are left alone. */
  function Flatten(xs: seq<Value>): (r: seq<Value>)
    ensures forall i :: 0 <= i < |r| ==> !r[i].Seq?
  {
    if xs == [] then []
    else (if xs[0].Seq? then Flatten(xs[0].elems) else [xs[0]]) + Flatten(xs[1..])
  }

  lemma {:induction false} FlattenAppend(a: seq<Value>, b: seq<Value>)
    ensures Flatten(a + b) == Flatten(a) + Flatten(b)
  {
    if a != [] {
      var head := if a[0].Seq? then Flatten(a[0].elems) else [a[0]];
      assert (a + b)[0] == a[0];
      assert (a + b)[1..] == a[1..] + b;
      assert Flatten(a + b) == head + Flatten(a[1..] + b);
      FlattenAppend(a[1..], b);
      assert Flatten(a) == head + Flatten(a[1..]);
      assert head + (Flatten(a[1..]) + Flatten(b)) == (head + Flatten(a[1..])) + Flatten(b);
    } else {
      assert a + b == b;
    }
  }

  /** A sequence with no Array in it is left as it is. */
  lemma {:induction false} FlattenNoSeq(xs: seq<Value>)
    requires forall i :: 0 <= i < |xs| ==> !xs[i].Seq?
    ensures Flatten(xs) == xs
  {
    if xs != [] {
      FlattenNoSeq(xs[1..]);
    }
  }

  /** `List.new(val)` (main.rb:258-263): pushes each element of
      `val.flatten` onto a fresh `@val`. */
  method NewList(val: seq<Value>) returns (l: Value)
    ensures l.List? && l.items == Flatten(val)
    ensures forall i :: 0 <= i < |l.items| ==> !l.items[i].Seq?
  {
    var items: seq<Value> := [];
    var i := 0;
    while i < |val|
      invariant 0 <= i <= |val|
      invariant items == Flatten(val[..i])
    {
      FlattenAppend(val[..i], [val[i]]);
      assert val[..i + 1] == val[..i] + [val[i]];
      items := items + (if val[i].Seq? then Flatten(val[i].elems) else [val[i]]);
      i := i + 1;
    }
    assert val[..|val|] == val;
    l := List(items);
  }

  /** `bool`: the truthiness string of a value (main.rb:101-103, 143-145,
      277-284); None where Ruby has no such method. */
  function Truth(v: Value): (r: Result<string>)
    ensures r.Ok? <==> !(v.Seq? || v.Nil? || v.Prim?)
    ensures v.Boolean? ==> r == Ok(v.text)
    ensures r.Ok? && !v.Boolean? ==> r.value == (if v == List([]) then "false" else "true")
  {
    match v
    case Boolean(t) => Ok(t)
    case List(xs) => Ok(if xs == [] then "false" else "true")
    case Seq(_) => Err(NoMethod)
    case Nil => Err(NoMethod)
    case Prim(_) => Err(NoMethod)
    case _ => Ok("true")
  }

  /** `List#car`: the first element, nil for an empty list. */
  function Car(l: Value): Value
    requires l.List?
  {
    if l.items == [] then Nil else l.items[0]
  }

  /** `List#cdr`: `@val.slice(1..-1)`, a bare Array, or nil for an empty list. */
  function Cdr(l: Value): Value
    requires l.List?
  {
    if l.items == [] then Nil else Seq(l.items[1..])
  }

  /** car and cdr split a non-empty list into its first element and the
      rest, and are both nil-like only for the empty list. */
  lemma CarCdrSplit(l: Value)
    requires l.List?
    ensures l.items != [] ==> Cdr(l).Seq? && [Car(l)] + Cdr(l).elems == l.items
    ensures l.items == [] <==> Cdr(l) == Nil
  {
    if l.items != [] {
      assert [l.items[0]] + l.items[1..] == l.items;
    }
  }

  /** A Ruby hash key or `==` operand: what `.val` gives for the kinds whose
      `val` is an Integer, a String or a Symbol. */
  datatype Key = KInt(n: int) | KStr(s: string) | KSym(name: string)

  /** `.val` where it is used as a Ruby object. A Float, or an Array of
      objects compared by identity, is not modelled; nil, Arrays and lambdas
      have no `val`. */
  function ValOf(v: Value): Result<Key> {
    match v
    case Fixnum(n) => Ok(KInt(n))
    case Boolean(t) => Ok(KStr(t))
    case Char(t) => Ok(KStr(t))
    case Symbol(n) => Ok(KSym(n))
    case Double => Err(Unmodelled)
    case Str(_) => Err(Unmodelled)
    case List(_) => Err(Unmodelled)
    case _ => Err(NoMethod)
  }

  /** Characters Ruby's `String#strip` removes from the end. */
  predicate IsStripped(c: char) {
    c == '\0' || c == ' ' || c == '\t' || c == '\n' || c == '\U{000B}' || c == '\U{000C}' || c == '\r'
  }

  function TrimEnd(s: string): (r: string)
    ensures |r| <= |s| && r == s[..|r|]
    ensures r == [] || !IsStripped(r[|r| - 1])
  {
    if s != [] && IsStripped(s[|s| - 1]) then TrimEnd(s[..|s| - 1]) else s
  }

  /** `to_s`, with None for Ruby nil (a Boolean whose text is neither 'true'
      nor 'false' answers nil). */
  function ToS(v: Value): Result<Option<string>>
    decreases v, 0
  {
    match v
    case Fixnum(n) => Ok(Some(Decimal(n)))
    case Double => Err(Unmodelled)
    case Boolean(t) => Ok(if t == "true" || t == "false" then Some(t) else None)
    case Char(t) => Ok(Some(t))
    case Str(t) => Ok(Some(if t == "" then "" else "\"" + t + "\""))
    case Symbol(n) => Ok(Some(n))
    case List(xs) =>
      if xs == [] then Ok(Some("()"))
      else
        var body :- ItemsText(xs);
        Ok(Some(TrimEnd("(" + body) + ")"))
    case Seq(_) => Err(Unmodelled)
    case Nil => Ok(Some(""))
    case Prim(_) => Err(Unmodelled)
  }

  /** `"#{val}"` on a value: its `to_s`, except that a nil answer makes Ruby
      fall back to an address-bearing default, which is not modelled. */
  function Interpolate(v: Value): Result<string>
    decreases v, 1
  {
    var t :- ToS(v);
    if t.Some? then Ok(t.value) else Err(Unmodelled)
  }

  /** The `reduce` in `List#to_s` (main.rb:270-272): each element's text
      followed by a space. */
  function ItemsText(xs: seq<Value>): Result<string>
    decreases xs, 2
  {
    if xs == [] then Ok("")
    else
      var h :- Interpolate(xs[0]);
      var t :- ItemsText(xs[1..]);
      Ok(h + " " + t)
  }
}
