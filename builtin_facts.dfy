/** What the builtin lambdas compute, stated against independent reference
    definitions: sums and products for the arithmetic folds, sortedness for
    the comparison chains, concatenation for `++`, the list round trip for
    `cons`, `head` and `tail`. */
module BuiltinFacts {
  import opened Base
  import opened Numerals
  import opened Values
  import opened Environment
  import opened Builtins
  import Classify

  /** The Integers of a run of Fixnums. */
  function Ints(xs: seq<Value>): (r: seq<int>)
    requires AllFixnum(xs)
    ensures |r| == |xs| && forall i :: 0 <= i < |xs| ==> r[i] == xs[i].n
  {
    if xs == [] then [] else [xs[0].n] + Ints(xs[1..])
  }

  function Sum(ns: seq<int>): int {
    if ns == [] then 0 else ns[0] + Sum(ns[1..])
  }

  function Product(ns: seq<int>): int {
    if ns == [] then 1 else ns[0] * Product(ns[1..])
  }

  // ---------------------------------------------------------------------
  // Arithmetic

  lemma {:induction false} FoldAdd(acc: int, xs: seq<Value>)
    requires AllFixnum(xs)
    ensures FoldInts(Add, acc, xs) == Ok(acc + Sum(Ints(xs)))
    decreases xs
  {
    if xs != [] {
      FoldAdd(acc + xs[0].n, xs[1..]);
      assert Ints(xs)[1..] == Ints(xs[1..]);
    }
  }

  lemma {:induction false} FoldSub(acc: int, xs: seq<Value>)
    requires AllFixnum(xs)
    ensures FoldInts(Sub, acc, xs) == Ok(acc - Sum(Ints(xs)))
    decreases xs
  {
    if xs != [] {
      FoldSub(acc - xs[0].n, xs[1..]);
      assert Ints(xs)[1..] == Ints(xs[1..]);
    }
  }

  lemma {:induction false} FoldMul(acc: int, xs: seq<Value>)
    requires AllFixnum(xs)
    ensures FoldInts(Mul, acc, xs) == Ok(acc * Product(Ints(xs)))
    decreases xs
  {
    if xs != [] {
      FoldMul(acc * xs[0].n, xs[1..]);
      assert Ints(xs)[1..] == Ints(xs[1..]);
      assert acc * xs[0].n * Product(Ints(xs[1..])) == acc * (xs[0].n * Product(Ints(xs[1..])));
    }
  }

  /** `(+ a b ...)` on Fixnums is their sum; `(+)` is 0. */
  lemma SumOfFixnums(args: seq<Value>, g: Table)
    requires AllFixnum(args)
    ensures Apply(Add, args, g) == Ok(Fixnum(Sum(Ints(args))))
  {
    NoDoubleNoStr(args);
    if args != [] {
      FoldAdd(args[0].n, args[1..]);
      assert Ints(args)[1..] == Ints(args[1..]);
    }
  }

  /** `(* a b ...)` on Fixnums is their product, but `(*)` is 0, not 1:
      `reduce` gives nil and `nil.to_i` is 0. */
  lemma ProductOfFixnums(args: seq<Value>, g: Table)
    requires AllFixnum(args)
    ensures Apply(Mul, args, g) == Ok(Fixnum(if args == [] then 0 else Product(Ints(args))))
  {
    NoDoubleNoStr(args);
    if args != [] {
      FoldMul(args[0].n, args[1..]);
      assert Ints(args)[1..] == Ints(args[1..]);
    }
  }

  /** `(- a b ...)` on Fixnums subtracts the rest from the first. */
  lemma DifferenceOfFixnums(args: seq<Value>, g: Table)
    requires AllFixnum(args)
    ensures Apply(Sub, args, g) == Ok(Fixnum(if args == [] then 0 else args[0].n - Sum(Ints(args[1..]))))
  {
    NoDoubleNoStr(args);
    if args != [] {
      FoldSub(args[0].n, args[1..]);
    }
  }

  /** With one Fixnum argument, `+`, `*`, `-` and `%` return it. */
  lemma OneArgumentUnchanged(op: Builtin, x: Value, g: Table)
    requires IsArith(op) && x.Fixnum?
    ensures Apply(op, [x], g) == Ok(x)
  {
    NoDoubleNoStr([x]);
  }

  lemma NoDoubleNoStr(args: seq<Value>)
    requires AllFixnum(args)
    ensures !AnyDouble(args) && !AnyStr(args) && AllHaveVal(args)
  {
  }

  /** A Ruby `%` chain raises exactly when a divisor is 0, and otherwise
      ends in the last divisor's range. */
  lemma {:induction false} FoldMod(acc: int, xs: seq<Value>)
    requires AllFixnum(xs)
    ensures FoldInts(Mod, acc, xs).Err? <==> exists i :: 0 <= i < |xs| && xs[i].n == 0
    ensures FoldInts(Mod, acc, xs).Err? ==> FoldInts(Mod, acc, xs).error == ZeroDivision
    ensures FoldInts(Mod, acc, xs).Ok? && xs != [] ==>
      var b, r := xs[|xs| - 1].n, FoldInts(Mod, acc, xs).value;
      (b > 0 ==> 0 <= r < b) && (b < 0 ==> b < r <= 0)
    decreases xs
  {
    if xs != [] && xs[0].n != 0 {
      FoldMod(FlooredMod(acc, xs[0].n), xs[1..]);
      assert forall i :: 1 <= i < |xs| ==> xs[i] == xs[1..][i - 1];
      if xs[1..] != [] {
        assert xs[|xs| - 1] == xs[1..][|xs[1..]| - 1];
      }
    }
  }

  /** `(% a b ...)` on Fixnums: ZeroDivision exactly when some divisor is 0;
      otherwise the result has the last divisor's sign, and `(% a)` is a. */
  lemma ModuloOfFixnums(args: seq<Value>, g: Table)
    requires AllFixnum(args) && args != []
    ensures Apply(Mod, args, g).Err? <==> exists i :: 1 <= i < |args| && args[i].n == 0
    ensures Apply(Mod, args, g).Err? ==> Apply(Mod, args, g).error == ZeroDivision
    ensures Apply(Mod, args, g).Ok? ==> Apply(Mod, args, g).value.Fixnum?
    ensures |args| == 1 ==> Apply(Mod, args, g) == Ok(args[0])
    ensures |args| >= 2 && Apply(Mod, args, g).Ok? ==>
      var b, r := args[|args| - 1].n, Apply(Mod, args, g).value.n;
      (b > 0 ==> 0 <= r < b) && (b < 0 ==> b < r <= 0)
  {
    NoDoubleNoStr(args);
    FoldMod(args[0].n, args[1..]);
    assert forall i :: 1 <= i < |args| ==> args[i] == args[1..][i - 1];
    if |args| >= 2 {
      assert args[|args| - 1] == args[1..][|args[1..]| - 1];
    }
  }

  /** Once a Float enters a `+`, `*` or `-` reduction nothing can fail. */
  lemma {:induction false} FoldNumsTotal(op: Builtin, acc: Num, xs: seq<Value>)
    requires (op.Add? || op.Mul? || op.Sub?) && AllNumeric(xs)
    ensures FoldNums(op, acc, xs).Ok?
    decreases xs
  {
    if xs != [] {
      if acc.Int? && xs[0].Fixnum? {
        FoldNumsTotal(op, Int(IntOp(op, acc.n, xs[0].n).value), xs[1..]);
      } else {
        FoldNumsTotal(op, Float, xs[1..]);
      }
    }
  }

  /** A Double among numbers makes `+`, `*` and `-` answer a Double. */
  lemma DoubleContagion(op: Builtin, args: seq<Value>, g: Table)
    requires op.Add? || op.Mul? || op.Sub?
    requires AnyDouble(args) && AllNumeric(args)
    ensures Apply(op, args, g) == Ok(Double)
  {
    FoldNumsTotal(op, NumOf(args[0]), args[1..]);
  }

  /** Float `%` by Integers succeeds exactly when no divisor is 0, and
      raises ZeroDivisionError at the first 0. */
  lemma {:induction false} FloatModByIntegers(xs: seq<Value>)
    requires AllFixnum(xs)
    ensures FoldNums(Mod, Float, xs).Ok? <==> forall i :: 0 <= i < |xs| ==> xs[i].n != 0
    ensures FoldNums(Mod, Float, xs).Err? ==> FoldNums(Mod, Float, xs).error == ZeroDivision
    decreases xs
  {
    if xs != [] && xs[0].n != 0 {
      FloatModByIntegers(xs[1..]);
      assert forall i :: 1 <= i < |xs| ==> xs[i] == xs[1..][i - 1];
    }
  }

  /** `%` with a Double first and a later 0 raises ZeroDivisionError when
      the divisors before the 0 are non-zero Integers. */
  lemma FloatModZero(args: seq<Value>, k: nat, g: Table)
    requires |args| >= 2 && args[0] == Double && AllFixnum(args[1..])
    requires 1 <= k < |args| && args[k].n == 0
    ensures Apply(Mod, args, g) == Err(ZeroDivision)
  {
    assert args[1..][k - 1] == args[k];
    FloatModByIntegers(args[1..]);
    assert AnyDouble(args) by { assert args[0].Double?; }
  }

  /** `%` by a Double divisor is not decided: its value is not modelled. */
  lemma ModByDouble(n: int, g: Table)
    ensures Apply(Mod, [Fixnum(n), Double], g) == Err(Unmodelled)
  {
    var args := [Fixnum(n), Double];
    assert AnyDouble(args) by { assert args[1].Double?; }
    assert AllNumeric(args) by { assert args[0].Fixnum? && args[1].Double?; }
    assert args[1..] == [Double];
  }

  /** `+`, `-` and `%` refuse a String when no Double is present; `*` has
      no such check. */
  lemma StringRejected(op: Builtin, args: seq<Value>, g: Table)
    requires op.Add? || op.Sub? || op.Mod?
    requires !AnyDouble(args) && AnyStr(args)
    ensures Apply(op, args, g) == Err(TypeMismatch)
  {
  }

  // ---------------------------------------------------------------------
  // Comparisons

  predicate Increasing(ns: seq<int>) {
    forall i, j :: 0 <= i < j < |ns| ==> ns[i] < ns[j]
  }

  predicate Decreasing(ns: seq<int>) {
    forall i, j :: 0 <= i < j < |ns| ==> ns[i] > ns[j]
  }

  lemma IncreasingCons(ns: seq<int>)
    requires |ns| >= 2
    ensures Increasing(ns) <==> ns[0] < ns[1] && Increasing(ns[1..])
  {
    if ns[0] < ns[1] && Increasing(ns[1..]) {
      forall i, j | 0 <= i < j < |ns|
        ensures ns[i] < ns[j]
      {
        if i > 0 {
          assert ns[i] == ns[1..][i - 1] && ns[j] == ns[1..][j - 1];
        } else if j > 1 {
          assert ns[1] == ns[1..][0] && ns[j] == ns[1..][j - 1];
        }
      }
    }
    if Increasing(ns) {
      forall i, j | 0 <= i < j < |ns| - 1
        ensures ns[1..][i] < ns[1..][j]
      {
        assert ns[1..][i] == ns[i + 1] && ns[1..][j] == ns[j + 1];
      }
    }
  }

  lemma DecreasingCons(ns: seq<int>)
    requires |ns| >= 2
    ensures Decreasing(ns) <==> ns[0] > ns[1] && Decreasing(ns[1..])
  {
    if ns[0] > ns[1] && Decreasing(ns[1..]) {
      forall i, j | 0 <= i < j < |ns|
        ensures ns[i] > ns[j]
      {
        if i > 0 {
          assert ns[i] == ns[1..][i - 1] && ns[j] == ns[1..][j - 1];
        } else if j > 1 {
          assert ns[1] == ns[1..][0] && ns[j] == ns[1..][j - 1];
        }
      }
    }
    if Decreasing(ns) {
      forall i, j | 0 <= i < j < |ns| - 1
        ensures ns[1..][i] > ns[1..][j]
      {
        assert ns[1..][i] == ns[i + 1] && ns[1..][j] == ns[j + 1];
      }
    }
  }

  lemma {:induction false} LessChain(args: seq<Value>)
    requires AllFixnum(args)
    ensures Chain(Less, args) == Ok(Increasing(Ints(args)))
    decreases args
  {
    if |args| >= 2 {
      LessChain(args[1..]);
      assert Ints(args)[1..] == Ints(args[1..]);
      IncreasingCons(Ints(args));
    }
  }

  lemma {:induction false} GreaterChain(args: seq<Value>)
    requires AllFixnum(args)
    ensures Chain(Greater, args) == Ok(Decreasing(Ints(args)))
    decreases args
  {
    if |args| >= 2 {
      GreaterChain(args[1..]);
      assert Ints(args)[1..] == Ints(args[1..]);
      DecreasingCons(Ints(args));
    }
  }

  /** `(< a b ...)` on Fixnums is true exactly when they strictly increase. */
  lemma LessMeansIncreasing(args: seq<Value>, g: Table)
    requires AllFixnum(args)
    ensures Apply(Less, args, g) == Ok(Boolean(BoolText(Increasing(Ints(args)))))
  {
    LessChain(args);
  }

  /** `(> a b ...)` on Fixnums is true exactly when they strictly decrease. */
  lemma GreaterMeansDecreasing(args: seq<Value>, g: Table)
    requires AllFixnum(args)
    ensures Apply(Greater, args, g) == Ok(Boolean(BoolText(Decreasing(Ints(args)))))
  {
    GreaterChain(args);
  }

  /** `(= a b ...)` on Fixnums is true exactly when all equal the first. */
  lemma EqualMeansAllSame(args: seq<Value>, g: Table)
    requires AllFixnum(args)
    ensures Apply(Equal, args, g) == Ok(Boolean(BoolText(forall i :: 0 <= i < |args| ==> args[i].n == args[0].n)))
  {
    ApplyComparison(Equal, args, g);
    ChainPairs(Equal, args);
    assert forall i :: 0 <= i < |args| - 1 ==> Rel(Equal, args[i], args[i + 1]) == Ok(args[i].n == args[i + 1].n);
    if forall i :: 0 <= i < |args| - 1 ==> args[i].n == args[i + 1].n {
      AllSameAsFirst(args, |args|);
    }
  }

  lemma {:induction false} AllSameAsFirst(args: seq<Value>, k: nat)
    requires AllFixnum(args) && k <= |args|
    requires forall i :: 0 <= i < |args| - 1 ==> args[i].n == args[i + 1].n
    ensures forall i :: 0 <= i < k ==> args[i].n == args[0].n
  {
    if k > 0 {
      AllSameAsFirst(args, k - 1);
      if k > 1 {
        assert args[k - 2].n == args[k - 1].n;
      }
    }
  }

  /** `<`, `>` and `=` answer whether the relation holds between every
      two consecutive arguments, which is vacuous for fewer than two. */
  lemma ComparisonOfNeighbours(op: Builtin, args: seq<Value>, g: Table)
    requires IsComparison(op) && AllHaveVal(args)
    requires forall i :: 0 <= i < |args| - 1 ==> Rel(op, args[i], args[i + 1]).Ok?
    ensures Apply(op, args, g) ==
      Ok(Boolean(BoolText(forall i :: 0 <= i < |args| - 1 ==> Rel(op, args[i], args[i + 1]).value)))
    ensures |args| < 2 ==> Apply(op, args, g) == Ok(Boolean("true"))
  {
    ApplyComparison(op, args, g);
    ChainPairs(op, args);
  }

  /** The three comparison lambdas share one body. */
  lemma ApplyComparison(op: Builtin, args: seq<Value>, g: Table)
    requires IsComparison(op)
    ensures Apply(op, args, g) == Comparison(op, args)
  {
  }

  /** A number and a name cannot be ordered; they compare unequal. */
  lemma MixedComparison(n: int, name: string, g: Table)
    ensures Apply(Less, [Fixnum(n), Symbol(name)], g) == Err(Incomparable)
    ensures Apply(Equal, [Fixnum(n), Symbol(name)], g) == Ok(Boolean("false"))
  {
    var args := [Fixnum(n), Symbol(name)];
    assert AllHaveVal(args);
    assert Chain(Equal, args[1..]) == Ok(true);
    assert Rel(Equal, args[0], args[1]) == Ok(false);
  }

  /** A Float, String or List first in a pair is not compared: `<`, `>`
      and `=` give `Unmodelled` (a Float's value is not kept, and Ruby
      compares a String's Char objects by identity). */
  lemma OpaqueComparison(op: Builtin, a: Value, b: Value, g: Table)
    requires IsComparison(op)
    requires a.Str? || a.List? || a.Double?
    requires HasVal(b)
    ensures Apply(op, [a, b], g) == Err(Unmodelled)
  {
    var args := [a, b];
    ApplyComparison(op, args, g);
    assert AllHaveVal(args);
    assert Rel(op, args[0], args[1]) == Err(Unmodelled);
  }

  // ---------------------------------------------------------------------
  // ++ and list

  /** A List as the reader and the builtins build it: no bare Array inside. */
  predicate FlatList(l: Value) {
    l.List? && forall j :: 0 <= j < |l.items| ==> !l.items[j].Seq?
  }

  predicate ItemsFlat(xs: seq<Value>) {
    forall i :: 0 <= i < |xs| ==> FlatList(xs[i])
  }

  function AllItems(xs: seq<Value>): seq<Value>
    requires AllList(xs)
  {
    if xs == [] then [] else xs[0].items + AllItems(xs[1..])
  }

  lemma {:induction false} FlattenItemSeqs(xs: seq<Value>)
    requires ItemsFlat(xs)
    ensures Flatten(ItemSeqs(xs)) == AllItems(xs)
  {
    if xs != [] {
      FlattenItemSeqs(xs[1..]);
      FlattenNoSeq(xs[0].items);
      assert ItemSeqs(xs) == [Seq(xs[0].items)] + ItemSeqs(xs[1..]);
    }
  }

  lemma NoSeqOfLists(xs: seq<Value>)
    requires AllList(xs)
    ensures Flatten(xs) == xs
  {
    FlattenNoSeq(xs);
  }

  /** `(++ l1 l2 ...)` on Lists is the List of all their items, in order. */
  lemma ConcatOfLists(args: seq<Value>, g: Table)
    requires ItemsFlat(args)
    ensures Apply(Concat, args, g) == Ok(List(AllItems(args)))
  {
    NoSeqOfLists(args);
    FlattenItemSeqs(args);
  }

  /** `(++ s1 s2 ...)` on Strings is the String of all their characters. */
  lemma ConcatOfStrings(args: seq<Value>, g: Table)
    requires args != [] && AllStr(args)
    ensures Apply(Concat, args, g) == Ok(Str(Texts(args)))
  {
    FlattenNoSeq(args);
    assert !args[0].List?;
  }

  /** Without Arrays among the arguments, `++` refuses exactly the mixes
      that are neither all Lists nor all Strings. */
  lemma ConcatRefusesMixes(args: seq<Value>, g: Table)
    requires !AnySeq(args)
    ensures Apply(Concat, args, g) == Err(CannotConcat) <==> !AllList(args) && !AllStr(args)
  {
    FlattenNoSeq(args);
  }

  /** `list` keeps its arguments as they are: a List among them stays one
      element, it is not spliced in. */
  lemma ListKeepsArguments(args: seq<Value>, g: Table)
    requires !AnySeq(args)
    ensures Apply(MakeList, args, g) == Ok(List(args))
  {
    FlattenNoSeq(args);
  }

  /** `(list (list 1 2) 3)` has two elements. */
  lemma NestedListNotFlattened(g: Table)
    ensures Apply(MakeList, [List([Fixnum(1), Fixnum(2)]), Fixnum(3)], g)
         == Ok(List([List([Fixnum(1), Fixnum(2)]), Fixnum(3)]))
  {
    ListKeepsArguments([List([Fixnum(1), Fixnum(2)]), Fixnum(3)], g);
  }

  // ---------------------------------------------------------------------
  // cons, head, tail

  /** `(cons h l1 l2 ...)` onto Lists puts `h` in front of all their items,
      in order. */
  lemma ConsOntoLists(h: Value, ls: seq<Value>, g: Table)
    requires !h.Seq? && ItemsFlat(ls)
    ensures Apply(Cons, [h] + ls, g) == Ok(List([h] + AllItems(ls)))
  {
    assert ([h] + ls)[1..] == ls;
    NoSeqOfLists(ls);
    FlattenItemSeqs(ls);
    FlattenAppend([h], ItemSeqs(ls));
    assert Flatten([h]) == [h] + Flatten([]);
    assert [h] + [] == [h];
  }

  /** The one-list case. */
  lemma ConsOntoList(h: Value, l: Value, g: Table)
    requires !h.Seq? && FlatList(l)
    ensures Apply(Cons, [h, l], g) == Ok(List([h] + l.items))
  {
    assert ItemsFlat([l]);
    ConsOntoLists(h, [l], g);
    assert [h] + [l] == [h, l];
    assert AllItems([l]) == l.items + AllItems([]);
    assert l.items + [] == l.items;
  }

  /** `(cons h "text")` builds a String: `h`'s text followed by the text. */
  lemma ConsOntoString(h: Value, t: string, g: Table)
    requires !h.Seq? && HasVal(h) && ValText(h).Ok?
    ensures Apply(Cons, [h, Str(t)], g) == Ok(Str(ValText(h).value + t))
  {
    assert [h, Str(t)][1..] == [Str(t)];
    FlattenNoSeq([Str(t)]);
    FlattenNoSeq([h]);
    assert ValTexts([h]) == Ok(ValText(h).value + "");
    assert Texts([Str(t)]) == t + "";
    assert !AllList([Str(t)]) && AllStr([Str(t)]);
    assert Flatten([h]) == [h];
    assert ValText(h).value + "" == ValText(h).value;
    assert t + "" == t;
  }

  /** `(head '(l ...))` is the first element of `l`, nil for `()`. */
  lemma HeadOfQuoted(l: Value, more: seq<Value>, g: Table)
    requires l.List?
    ensures Apply(Head, [Seq([l] + more)], g) == Ok(Car(l))
  {
  }

  /** `(tail '(l ...))` is a List of the rest of `l`'s items; for `()` the
      Ruby code calls `flatten` on nil. */
  lemma TailOfQuoted(l: Value, more: seq<Value>, g: Table)
    requires FlatList(l)
    ensures l.items == [] ==> Apply(Tail, [Seq([l] + more)], g) == Err(NoMethod)
    ensures l.items != [] ==> Apply(Tail, [Seq([l] + more)], g) == Ok(List(l.items[1..]))
  {
    if l.items != [] {
      FlattenNoSeq(l.items[1..]);
    }
  }

  /** cons of a list's head onto its tail gives the list back. */
  lemma ConsHeadTail(l: Value, g: Table)
    requires FlatList(l) && l.items != []
    ensures Apply(Head, [Seq([l])], g).Ok? && Apply(Tail, [Seq([l])], g).Ok?
    ensures Apply(Cons, [Apply(Head, [Seq([l])], g).value, Apply(Tail, [Seq([l])], g).value], g) == Ok(l)
  {
    HeadOfQuoted(l, [], g);
    TailOfQuoted(l, [], g);
    assert [l] + [] == [l];
    var t := List(l.items[1..]);
    ConsOntoList(Car(l), t, g);
    assert [Car(l)] + t.items == l.items;
  }

  // ---------------------------------------------------------------------
  // casts, kind tests, bound?

  /** `str!` of one value that is not a List is the text `write` shows. */
  lemma StrCastIsWrite(v: Value, t: string, g: Table)
    requires !v.List? && ToS(v) == Ok(Some(t))
    ensures Apply(StrCast, [v], g) == Ok(Str(t))
  {
    assert [v][1..] == [];
    assert ShownTexts([v]) == Ok(t + "");
    assert !AnyList([v]);
    assert ShownText(v) == Ok(t);
    assert t + "" == t;
  }

  /** `sym!` of Symbols joins their names. */
  lemma {:induction false} SymCastJoins(args: seq<Value>, g: Table)
    requires forall i :: 0 <= i < |args| ==> args[i].Symbol?
    ensures Apply(SymCast, args, g) == Ok(Symbol(Names(args)))
  {
    NamesText(args);
  }

  function Names(xs: seq<Value>): string
    requires forall i :: 0 <= i < |xs| ==> xs[i].Symbol?
  {
    if xs == [] then "" else xs[0].name + Names(xs[1..])
  }

  lemma {:induction false} NamesText(xs: seq<Value>)
    requires forall i :: 0 <= i < |xs| ==> xs[i].Symbol?
    ensures ValTexts(xs) == Ok(Names(xs))
  {
    if xs != [] {
      NamesText(xs[1..]);
    }
  }

  /** Neither cast accepts a List. */
  lemma CastsRejectLists(args: seq<Value>, g: Table)
    requires AnyList(args)
    ensures Apply(StrCast, args, g) == Err(CastListToString)
    ensures Apply(SymCast, args, g) == Err(CastListToSymbol)
  {
  }

  /** `(bound? a b ...)` on Symbols: whether every name has a truthy value
      in the root table (its frames are not consulted). */
  lemma {:induction false} BoundOfSymbols(args: seq<Value>, g: Table)
    requires forall i :: 0 <= i < |args| ==> args[i].Symbol?
    ensures BoundAll(args, g) == Ok(forall i :: 0 <= i < |args| ==> Exists(g, KSym(args[i].name)))
  {
    if args != [] {
      BoundOfSymbols(args[1..], g);
      assert forall i :: 1 <= i < |args| ==> args[i] == args[1..][i - 1];
    }
  }

  /** The zero-argument lambdas refuse arguments and answer nil. */
  lemma NewlineArity(args: seq<Value>, g: Table)
    ensures Apply(Newline, args, g) == (if args == [] then Ok(Nil) else Err(WrongArity))
    ensures Apply(ShowGlobals, args, g) == (if args == [] then Ok(Nil) else Err(WrongArity))
  {
  }

  /** A kind test on one value answers whether the value is of its kind. */
  lemma KindTestOfOne(op: Builtin, v: Value, g: Table)
    requires op.BoolP? || op.FixnumP? || op.StrP? || op.SymP? || op.DoubleP?
    ensures Apply(op, [v], g) == Ok(Boolean(BoolText(OfKind(op, v))))
  {
    var args := [v];
    assert (forall i :: 0 <= i < |args| ==> OfKind(op, args[i])) <==> OfKind(op, v) by {
      assert args[0] == v;
    }
  }

  /** The kind tests agree with the reader: on a value read from a token,
      `fixnum?`, `double?`, `bool?`, `str?` and `sym?` tell which of the
      reader's tests, tried in order, decided the token. */
  lemma KindTestsOfAtom(tok: string, g: Table)
    requires Classify.Atom(tok).Ok?
    ensures var v := Classify.Atom(tok).value;
      var fix, dbl, boo := IsFixnum(tok), Classify.IsDouble(tok), Classify.IsBool(tok);
      var chr, str := Classify.IsChar(tok), Classify.IsString(tok);
      && Apply(FixnumP, [v], g) == Ok(Boolean(BoolText(fix)))
      && Apply(DoubleP, [v], g) == Ok(Boolean(BoolText(!fix && dbl)))
      && Apply(BoolP, [v], g) == Ok(Boolean(BoolText(!fix && !dbl && boo)))
      && Apply(StrP, [v], g) == Ok(Boolean(BoolText(!fix && !dbl && !boo && !chr && str)))
      && Apply(SymP, [v], g) == Ok(Boolean(BoolText(!fix && !dbl && !boo && !chr && !str)))
  {
    var v := Classify.Atom(tok).value;
    KindTestOfOne(FixnumP, v, g);
    KindTestOfOne(DoubleP, v, g);
    KindTestOfOne(BoolP, v, g);
    KindTestOfOne(StrP, v, g);
    KindTestOfOne(SymP, v, g);
  }
}
