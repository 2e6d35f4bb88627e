/** The builtin lambdas of the root `ENV` (main.rb:380-514), applied to
    already evaluated arguments. `Apply` dispatches on the builtin; the
    root table is a parameter because `bound?` consults it. */
module Builtins {
  import opened Base
  import opened Numerals
  import opened Values
  import opened Environment

  /** `all?.to_s` and friends: Ruby's text for a boolean. */
  function BoolText(b: bool): string {
    if b then "true" else "false"
  }

  /** The kinds that have a `val` (nil, Arrays and lambdas do not). */
  predicate HasVal(v: Value) {
    !(v.Seq? || v.Nil? || v.Prim?)
  }

  predicate AllHaveVal(xs: seq<Value>) {
    forall i :: 0 <= i < |xs| ==> HasVal(xs[i])
  }

  predicate AnyDouble(xs: seq<Value>) {
    exists i :: 0 <= i < |xs| && xs[i].Double?
  }

  predicate AnyStr(xs: seq<Value>) {
    exists i :: 0 <= i < |xs| && xs[i].Str?
  }

  predicate AnyList(xs: seq<Value>) {
    exists i :: 0 <= i < |xs| && xs[i].List?
  }

  predicate AnySeq(xs: seq<Value>) {
    exists i :: 0 <= i < |xs| && xs[i].Seq?
  }

  predicate AllFixnum(xs: seq<Value>) {
    forall i :: 0 <= i < |xs| ==> xs[i].Fixnum?
  }

  predicate AllNumeric(xs: seq<Value>) {
    forall i :: 0 <= i < |xs| ==> xs[i].Fixnum? || xs[i].Double?
  }

  predicate AllList(xs: seq<Value>) {
    forall i :: 0 <= i < |xs| ==> xs[i].List?
  }

  predicate AllStr(xs: seq<Value>) {
    forall i :: 0 <= i < |xs| ==> xs[i].Str?
  }

  // ---------------------------------------------------------------------
  // + * - %

  predicate IsArith(op: Builtin) {
    op.Add? || op.Mul? || op.Sub? || op.Mod?
  }

  /** The quotient that goes with Ruby's `Integer#%`: rounded down. */
  function FloorDiv(a: int, b: int): int
    requires b != 0
  {
    if b < 0 && a % b != 0 then a / b - 1 else a / b
  }

  /** Ruby's `Integer#%`: the remainder takes the divisor's sign. */
  function FlooredMod(a: int, b: int): (r: int)
    requires b != 0
    ensures b > 0 ==> 0 <= r < b
    ensures b < 0 ==> b < r <= 0
    ensures a == b * FloorDiv(a, b) + r
  {
    var m := a % b;
    if b < 0 && m != 0 then
      assert b * (a / b - 1) == b * (a / b) - b;
      m + b
    else m
  }

  /** Quotient and remainder are the only pair with the remainder in the
      divisor's range. */
  lemma FlooredModUnique(a: int, b: int, q: int, r: int)
    requires b != 0
    requires b > 0 ==> 0 <= r < b
    requires b < 0 ==> b < r <= 0
    requires a == b * q + r
    ensures r == FlooredMod(a, b) && q == FloorDiv(a, b)
  {
    var q' := FloorDiv(a, b);
    var r' := FlooredMod(a, b);
    assert b * (q - q') == r' - r;
    if q != q' {
      MultipleAtLeast(b, q - q');
    }
  }

  lemma MultipleAtLeast(b: int, k: int)
    requires b != 0 && k != 0
    ensures b > 0 && k > 0 ==> b * k >= b
    ensures b > 0 && k < 0 ==> b * k <= -b
    ensures b < 0 && k > 0 ==> b * k <= b
    ensures b < 0 && k < 0 ==> b * k >= -b
  {
  }

  /** Integer `a op b`. */
  function IntOp(op: Builtin, a: int, b: int): Result<int>
    requires IsArith(op)
  {
    if op.Add? then Ok(a + b)
    else if op.Mul? then Ok(a * b)
    else if op.Sub? then Ok(a - b)
    else if b == 0 then Err(ZeroDivision)
    else Ok(FlooredMod(a, b))
  }

  /** `reduce(op)` over Integers, from `acc`. */
  function FoldInts(op: Builtin, acc: int, xs: seq<Value>): Result<int>
    requires IsArith(op) && AllFixnum(xs)
    decreases xs
  {
    if xs == [] then Ok(acc)
    else
      var a :- IntOp(op, acc, xs[0].n);
      FoldInts(op, a, xs[1..])
  }

  /** A Ruby number in a mixed `reduce`: an Integer, or a Float whose value
      is not modelled. */
  datatype Num = Int(n: int) | Float

  /** `reduce(op)` over Integers and Floats: Integer operations until the
      first Float, Float operations after it. Float `+`, `*` and `-` raise
      nothing; Float `%` raises ZeroDivisionError on a zero divisor, which
      for an Integer divisor is decided here and for a Float divisor, whose
      value is not modelled, is not. */
  function FoldNums(op: Builtin, acc: Num, xs: seq<Value>): (r: Result<Num>)
    requires IsArith(op) && AllNumeric(xs)
    decreases xs
    ensures r.Ok? && AnyDouble(xs) ==> r.value == Float
    ensures r.Ok? && acc.Float? ==> r.value == Float
  {
    if xs == [] then Ok(acc)
    else if acc.Int? && xs[0].Fixnum? then
      var a :- IntOp(op, acc.n, xs[0].n);
      FoldNums(op, Int(a), xs[1..])
    else if op.Mod? && xs[0].Double? then Err(Unmodelled)
    else if op.Mod? && xs[0].n == 0 then Err(ZeroDivision)
    else
      var r := FoldNums(op, Float, xs[1..]);
      assert r.Ok? ==> r.value == Float;
      r
  }

  function NumOf(v: Value): Num
    requires v.Fixnum? || v.Double?
  {
    if v.Fixnum? then Int(v.n) else Float
  }

  /** The `+`, `*`, `-` and `%` lambdas. A Double anywhere makes the
      result a Double, unless `%` meets a zero divisor; otherwise `+`, `-`
      and `%` reject Strings; then `map(&:val).reduce(op)` and `Fixnum.new`,
      whose `nil.to_i` makes an empty call 0. Reductions over non-numbers
      are not modelled. */
  function Arith(op: Builtin, args: seq<Value>): (r: Result<Value>)
    requires IsArith(op)
    ensures r.Ok? ==> (if AnyDouble(args) then r.value == Double else r.value.Fixnum?)
  {
    if AnyDouble(args) then
      if !AllHaveVal(args) then Err(NoMethod)
      else if !AllNumeric(args) then Err(Unmodelled)
      else
        var x :- FoldNums(op, NumOf(args[0]), args[1..]);
        Ok(Double)
    else if !op.Mul? && AnyStr(args) then Err(TypeMismatch)
    else if !AllHaveVal(args) then Err(NoMethod)
    else if args == [] then Ok(Fixnum(0))
    else if !AllFixnum(args) then Err(Unmodelled)
    else
      var n :- FoldInts(op, args[0].n, args[1..]);
      Ok(Fixnum(n))
  }

  // ---------------------------------------------------------------------
  // < > =

  predicate IsComparison(op: Builtin) {
    op.Less? || op.Greater? || op.Equal?
  }

  /** Ruby's `String#<` and `Symbol#<`: lexicographic by character. */
  predicate LexLess(a: string, b: string) {
    if a == [] then b != []
    else if b == [] then false
    else if a[0] != b[0] then a[0] < b[0]
    else LexLess(a[1..], b[1..])
  }

  /** LexLess is a strict total order: exactly one of a < b, a == b, b < a. */
  lemma {:induction false} LexTrichotomy(a: string, b: string)
    ensures LexLess(a, b) ==> !LexLess(b, a) && a != b
    ensures a != b ==> LexLess(a, b) || LexLess(b, a)
  {
    if a != [] && b != [] && a[0] == b[0] {
      LexTrichotomy(a[1..], b[1..]);
      assert a == [a[0]] + a[1..] && b == [b[0]] + b[1..];
    }
  }

  /** `x < y` on two `val`s. */
  function KeyLess(x: Key, y: Key): Result<bool> {
    if x.KInt? && y.KInt? then Ok(x.n < y.n)
    else if x.KStr? && y.KStr? then Ok(LexLess(x.s, y.s))
    else if x.KSym? && y.KSym? then Ok(LexLess(x.name, y.name))
    else Err(Incomparable)
  }

  /** One pair of `each_cons(2)`: `x < y`, `x > y` or `x == y` on the vals;
      Floats and Arrays are not modelled. */
  function Rel(op: Builtin, a: Value, b: Value): Result<bool>
    requires IsComparison(op)
  {
    var x :- ValOf(a);
    var y :- ValOf(b);
    if op.Equal? then Ok(x == y)
    else if op.Less? then KeyLess(x, y)
    else KeyLess(y, x)
  }

  /** `each_cons(2) { ... }` then `all?`: every pair is compared, in order,
      before the answer is formed. */
  function Chain(op: Builtin, args: seq<Value>): Result<bool>
    requires IsComparison(op)
  {
    if |args| < 2 then Ok(true)
    else
      var b :- Rel(op, args[0], args[1]);
      var rest :- Chain(op, args[1..]);
      Ok(b && rest)
  }

  /** The `<`, `>` and `=` lambdas: `map(&:val)` first, then the chain. */
  function Comparison(op: Builtin, args: seq<Value>): Result<Value>
    requires IsComparison(op)
  {
    if !AllHaveVal(args) then Err(NoMethod)
    else
      var b :- Chain(op, args);
      Ok(Boolean(BoolText(b)))
  }

  /** The chain holds exactly when every consecutive pair holds, and fails
      exactly when some pair cannot be compared. */
  lemma {:induction false} ChainPairs(op: Builtin, args: seq<Value>)
    requires IsComparison(op)
    ensures Chain(op, args).Ok? <==> forall i :: 0 <= i < |args| - 1 ==> Rel(op, args[i], args[i + 1]).Ok?
    ensures Chain(op, args).Ok? ==>
      (Chain(op, args).value <==> forall i :: 0 <= i < |args| - 1 ==> Rel(op, args[i], args[i + 1]).value)
  {
    if |args| >= 2 {
      ChainPairs(op, args[1..]);
      assert forall i :: 0 <= i < |args| - 1 ==> args[1..][i] == args[i + 1];
    }
  }

  /** `<` loop: the pairs are compared one at a time into `list`, and the
      answer is whether all of them came out true. */
  method CompareAll(op: Builtin, args: seq<Value>) returns (r: Result<Value>)
    requires IsComparison(op)
    ensures r == Comparison(op, args)
  {
    if !AllHaveVal(args) {
      return Err(NoMethod);
    }
    var all := true;
    var i := 0;
    while i + 1 < |args|
      invariant 0 <= i <= |args|
      invariant i + 1 >= |args| ==> Chain(op, args[i..]) == Ok(true)
      invariant Chain(op, args) == (var c := Chain(op, args[i..]); if c.Err? then c else Ok(all && c.value))
    {
      ChainStep(op, args[i..]);
      assert args[i..][1..] == args[i + 1..];
      var b := Rel(op, args[i], args[i + 1]);
      if b.Err? {
        return Err(b.error);
      }
      all := all && b.value;
      i := i + 1;
    }
    r := Ok(Boolean(BoolText(all)));
  }

  /** One step of the chain: the first pair, then the rest. */
  lemma ChainStep(op: Builtin, s: seq<Value>)
    requires IsComparison(op) && |s| >= 2
    ensures var b := Rel(op, s[0], s[1]);
      Chain(op, s) == if b.Err? then Err(b.error) else
        var c := Chain(op, s[1..]); if c.Err? then c else Ok(b.value && c.value)
  {
  }

  // ---------------------------------------------------------------------
  // ++ cons and the text-building casts

  /** `map(&:val)` on Lists: the Arrays of their items. */
  function ItemSeqs(xs: seq<Value>): (r: seq<Value>)
    requires AllList(xs)
    ensures |r| == |xs| && forall i :: 0 <= i < |r| ==> r[i] == Seq(xs[i].items)
  {
    if xs == [] then [] else [Seq(xs[0].items)] + ItemSeqs(xs[1..])
  }

  /** The characters of several Strings, in order. */
  function Texts(xs: seq<Value>): string
    requires AllStr(xs)
  {
    if xs == [] then "" else xs[0].text + Texts(xs[1..])
  }

  /** `to_s` of one `val` inside `join`: Floats and the items of a List
      are not modelled. */
  function ValText(v: Value): Result<string> {
    match v
    case Fixnum(n) => Ok(Decimal(n))
    case Boolean(t) => Ok(t)
    case Char(t) => Ok(t)
    case Str(t) => Ok(t)
    case Symbol(n) => Ok(n)
    case Double => Err(Unmodelled)
    case List(_) => Err(Unmodelled)
    case _ => Err(NoMethod)
  }

  function ValTexts(xs: seq<Value>): Result<string> {
    if xs == [] then Ok("")
    else
      var h :- ValText(xs[0]);
      var t :- ValTexts(xs[1..]);
      Ok(h + t)
  }

  /** `flat_map(&:val)` (every `val` first) then `to_s` of each and `join`. */
  function ValsText(xs: seq<Value>): Result<string> {
    if !AllHaveVal(xs) then Err(NoMethod) else ValTexts(xs)
  }

  /** `to_s` inside `join`, where a nil answer joins as nothing. */
  function ShownText(v: Value): Result<string> {
    var t :- ToS(v);
    Ok(if t.Some? then t.value else "")
  }

  function ShownTexts(xs: seq<Value>): Result<string> {
    if xs == [] then Ok("")
    else
      var h :- ShownText(xs[0]);
      var t :- ShownTexts(xs[1..]);
      Ok(h + t)
  }

  /** The `++` lambda. */
  function ConcatValues(args: seq<Value>): Result<Value> {
    var fl := Flatten(args);
    if AllList(fl) then Ok(List(Flatten(ItemSeqs(fl))))
    else if AllStr(fl) then
      if AnySeq(args) then Err(NoMethod) else Ok(Str(Texts(fl)))
    else Err(CannotConcat)
  }

  /** The `cons` lambda. */
  function ConsValues(args: seq<Value>): Result<Value> {
    if args == [] then Err(WrongArity)
    else
      var fl := Flatten(args[1..]);
      if AllList(fl) then Ok(List(Flatten([args[0]] + ItemSeqs(fl))))
      else if AllStr(fl) then
        var h :- ValsText(Flatten([args[0]]));
        Ok(Str(h + Texts(fl)))
      else Ok(List(Flatten(args)))
  }

  /** The `str!` lambda. */
  function StrCastValues(args: seq<Value>): Result<Value> {
    if AnyList(args) then Err(CastListToString)
    else
      var t :- ShownTexts(args);
      Ok(Str(t))
  }

  /** The `sym!` lambda. */
  function SymCastValues(args: seq<Value>): Result<Value> {
    if AnyList(args) then Err(CastListToSymbol)
    else
      var t :- ValsText(args);
      Ok(Symbol(t))
  }

  // ---------------------------------------------------------------------
  // kind tests, bound?, head, tail

  /** The class test of `bool?`, `fixnum?`, `str?`, `sym?` and `double?`. */
  predicate OfKind(op: Builtin, v: Value)
    requires op.BoolP? || op.FixnumP? || op.StrP? || op.SymP? || op.DoubleP?
  {
    if op.BoolP? then v.Boolean?
    else if op.FixnumP? then v.Fixnum?
    else if op.StrP? then v.Str?
    else if op.SymP? then v.Symbol?
    else v.Double?
  }

  /** `args.map { |x| ENV.exists?(ENV, x.val) }.all?`. */
  function BoundAll(args: seq<Value>, g: Table): Result<bool> {
    if args == [] then Ok(true)
    else
      var k :- ValOf(args[0]);
      var rest :- BoundAll(args[1..], g);
      Ok(Exists(g, k) && rest)
  }

  /** The `head` lambda on its one argument. */
  function HeadOf(list: Value): Result<Value> {
    if !list.Seq? then Err(NoMethod)
    else if list.elems == [] || !list.elems[0].List? then Ok(Nil)
    else Ok(Car(list.elems[0]))
  }

  /** The `tail` lambda on its one argument. */
  function TailOf(list: Value): Result<Value> {
    if !list.Seq? then Err(NoMethod)
    else if list.elems == [] || !list.elems[0].List? then Ok(Nil)
    else
      var c := Cdr(list.elems[0]);
      if c.Nil? then Err(NoMethod) else Ok(List(Flatten(c.elems)))
  }

  /** Calling the builtin `op` with `args`; `g` is the root table. */
  function Apply(op: Builtin, args: seq<Value>, g: Table): Result<Value> {
    match op
    case Newline => if args == [] then Ok(Nil) else Err(WrongArity)
    case ShowGlobals => if args == [] then Ok(Nil) else Err(WrongArity)
    case Add => Arith(op, args)
    case Mul => Arith(op, args)
    case Sub => Arith(op, args)
    case Mod => Arith(op, args)
    case Less => Comparison(op, args)
    case Greater => Comparison(op, args)
    case Equal => Comparison(op, args)
    case Concat => ConcatValues(args)
    case BoolP => Ok(Boolean(BoolText(forall i :: 0 <= i < |args| ==> OfKind(op, args[i]))))
    case FixnumP => Ok(Boolean(BoolText(forall i :: 0 <= i < |args| ==> OfKind(op, args[i]))))
    case StrP => Ok(Boolean(BoolText(forall i :: 0 <= i < |args| ==> OfKind(op, args[i]))))
    case SymP => Ok(Boolean(BoolText(forall i :: 0 <= i < |args| ==> OfKind(op, args[i]))))
    case DoubleP => Ok(Boolean(BoolText(forall i :: 0 <= i < |args| ==> OfKind(op, args[i]))))
    case BoundP =>
      var b :- BoundAll(args, g);
      Ok(Boolean(BoolText(b)))
    case StrCast => StrCastValues(args)
    case SymCast => SymCastValues(args)
    case Cons => ConsValues(args)
    case Head => if |args| != 1 then Err(WrongArity) else HeadOf(args[0])
    case Tail => if |args| != 1 then Err(WrongArity) else TailOf(args[0])
    case MakeList => Ok(List(Flatten(args)))
  }
}
