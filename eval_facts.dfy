/** What `evaluate` promises about bindings, conditionals and quoting,
    stated over `Eval`. */
module EvalFacts {
  import opened Base
  import opened Values
  import opened Environment
  import opened Builtins
  import opened Evaluator

  /** The environment the interpreter starts from. */
  function Start(): Env {
    Env(InitialTable(), [])
  }

  /** Numbers, Booleans and Strings evaluate to themselves. */
  lemma SelfEvaluating(e: Value, env: Env)
    requires e.Fixnum? || e.Double? || e.Boolean? || e.Str?
    ensures Eval(e, env) == Outcome(Ok(e), env)
  {
  }

  /** `(quote a b ...)` gives the bare Array of everything after `quote`
      (so `(quote x)` is a one-element Array, not `x`). */
  lemma QuoteGivesRest(rest: seq<Value>, env: Env)
    ensures Eval(List([Symbol("quote")] + rest), env) == Outcome(Ok(Seq(rest)), env)
  {
    assert ([Symbol("quote")] + rest)[1..] == rest;
  }

  /** `(head (quote l))` is the first element of the list `l`, whatever it
      contains: the quoted list is not evaluated. */
  lemma HeadOfQuote(l: Value, env: Env)
    requires l.List?
    requires FindIn(env.global, env.frames, KSym("head")) == Ok(Prim(Head))
    ensures Eval(List([Symbol("head"), List([Symbol("quote"), l])]), env) == Outcome(Ok(Car(l)), env)
  {
    var q := List([Symbol("quote"), l]);
    var xs := [Symbol("head"), q];
    QuotedArgument(xs, l, env);
    HeadCall(l, env.global);
    EvalApplication(xs, env);
  }

  lemma HeadCall(l: Value, g: Table)
    requires l.List?
    ensures Call(Prim(Head), [Seq([l])], g) == Ok(Car(l))
  {
  }

  /** A List headed by any other Symbol is an application. */
  lemma EvalApplication(xs: seq<Value>, env: Env)
    requires xs != [] && xs[0].Symbol? && xs[0].name !in {"quote", "bind", "if"}
    ensures Eval(List(xs), env) == EvalApply(xs, env)
  {
  }

  /** The arguments of `(f (quote l))` evaluate to the one-element Array
      holding `l`. */
  lemma QuotedArgument(xs: seq<Value>, l: Value, env: Env)
    requires |xs| == 2 && xs[1] == List([Symbol("quote"), l])
    ensures EvalArgs(xs, 1, [], env) == ArgsOutcome(Ok([Seq([l])]), env)
  {
    assert [Symbol("quote"), l][1..] == [l];
    assert Eval(xs[1], env) == Outcome(Ok(Seq([l])), env);
    assert [] + [Seq([l])] == [Seq([l])];
    assert EvalArgs(xs, 2, [Seq([l])], env) == ArgsOutcome(Ok([Seq([l])]), env);
  }

  /** At start-up every builtin's name evaluates to it. */
  lemma BuiltinNames(op: Builtin)
    ensures BuiltinKey(op).KSym? ==> Eval(Symbol(BuiltinKey(op).name), Start()) == Outcome(Ok(Prim(op)), Start())
  {
    InitialFinds(op);
    if BuiltinKey(op).KSym? {
      FoundName(BuiltinKey(op).name, Prim(op), Start());
    }
  }

  /** A symbol evaluates to what the lookup finds for it. */
  lemma FoundName(name: string, v: Value, env: Env)
    requires FindIn(env.global, env.frames, KSym(name)) == Ok(v)
    ensures Eval(Symbol(name), env) == Outcome(Ok(v), env)
  {
  }

  /** `(bind name v)` where the name is already bound fails before the
      value is evaluated, and changes nothing. */
  lemma BindRefusesBound(xs: seq<Value>, env: Env, k: Key)
    requires |xs| >= 2 && xs[0] == Symbol("bind") && !xs[1].List?
    requires ValOf(xs[1]) == Ok(k) && Exists(env.global, k)
    ensures Eval(List(xs), env) == Outcome(Err(AlreadyBound), env)
  {
  }

  /** `(bind name v)` where the name is free stores v's value under the
      name, touching no other entry, and answers it (a nil value is stored
      but then not found). */
  lemma BindStores(xs: seq<Value>, env: Env, k: Key, v: Value, after: Env)
    requires |xs| >= 3 && xs[0] == Symbol("bind") && !xs[1].List?
    requires ValOf(xs[1]) == Ok(k) && !Exists(env.global, k)
    requires Eval(xs[2], env) == Outcome(Ok(v), after)
    ensures Eval(List(xs), env).env == Env(after.global[k := v], env.frames)
    ensures v != Nil ==> Eval(List(xs), env).result == Ok(v)
    ensures v == Nil ==> Eval(List(xs), env).result == FirstFrame(env.frames, k)
  {
    FindAfterBinding(after.global, after.frames, k, v);
  }

  /** With a bind-free value, a successful `bind` adds exactly one entry. */
  lemma BindAddsOneEntry(xs: seq<Value>, env: Env, k: Key, v: Value)
    requires |xs| >= 3 && xs[0] == Symbol("bind") && !xs[1].List? && BindFree(xs[2])
    requires ValOf(xs[1]) == Ok(k) && !Exists(env.global, k)
    requires Eval(xs[2], env).result == Ok(v)
    ensures Eval(List(xs), env).env == Env(env.global[k := v], env.frames)
    ensures forall j :: j != k ==> (j in env.global <==> j in Eval(List(xs), env).env.global)
  {
    BindStores(xs, env, k, v, env);
  }

  /** The "already bound" test runs before the value is evaluated, so a
      value that binds the same name itself does not stop the outer bind
      from overwriting it: `(bind x (bind x 1))` succeeds. */
  lemma NestedBindOverwrites(env: Env)
    requires env.frames == [] && KSym("x") !in env.global
    ensures var inner := List([Symbol("bind"), Symbol("x"), Fixnum(1)]);
            Eval(List([Symbol("bind"), Symbol("x"), inner]), env)
              == Outcome(Ok(Fixnum(1)), Env(env.global[KSym("x") := Fixnum(1)], []))
  {
    var inner := List([Symbol("bind"), Symbol("x"), Fixnum(1)]);
    BindStores([Symbol("bind"), Symbol("x"), Fixnum(1)], env, KSym("x"), Fixnum(1), env);
    var mid := Env(env.global[KSym("x") := Fixnum(1)], []);
    assert Eval(inner, env) == Outcome(Ok(Fixnum(1)), mid);
    BindStores([Symbol("bind"), Symbol("x"), inner], env, KSym("x"), Fixnum(1), mid);
    assert mid.global[KSym("x") := Fixnum(1)] == env.global[KSym("x") := Fixnum(1)];
  }

  /** `(if test a b)` evaluates the test, then exactly one of the branches,
      in the environment the test left. */
  lemma IfChoosesOneBranch(xs: seq<Value>, env: Env, t: Value, mid: Env)
    requires |xs| >= 4 && xs[0] == Symbol("if")
    requires Eval(xs[1], env) == Outcome(Ok(t), mid) && Truth(t).Ok?
    ensures Truth(t).value == "true" ==> Eval(List(xs), env) == Eval(xs[2], mid)
    ensures Truth(t).value != "true" ==> Eval(List(xs), env) == Eval(xs[3], mid)
  {
  }

  /** Only the empty list and a Boolean whose text is not "true" take the
      else branch; 0 and "" count as true. */
  lemma IfTakesThenBranch(t: Value)
    requires Truth(t).Ok?
    ensures Truth(t).value != "true" <==> t == List([]) || (t.Boolean? && t.text != "true")
  {
  }

  /** A call whose name is unbound fails before any argument is evaluated,
      so bindings inside the arguments do not happen. */
  lemma UnboundCallEvaluatesNothing(xs: seq<Value>, env: Env)
    requires xs != [] && xs[0].Symbol? && xs[0].name !in {"quote", "bind", "if"}
    requires FindIn(env.global, env.frames, KSym(xs[0].name)).Err?
    ensures Eval(List(xs), env) == Outcome(Err(Unbound), env)
  {
  }

  /** `(+ 1 2)` is 3 wherever `+` names the builtin addition, as it does
      at start-up (`InitialFinds(Add)`). */
  lemma AddExample(env: Env)
    requires FindIn(env.global, env.frames, KSym("+")) == Ok(Prim(Add))
    ensures Eval(List([Symbol("+"), Fixnum(1), Fixnum(2)]), env) == Outcome(Ok(Fixnum(3)), env)
  {
    var xs := [Symbol("+"), Fixnum(1), Fixnum(2)];
    NumeralArguments(xs, env);
    assert xs[1..] == [Fixnum(1), Fixnum(2)];
    OnePlusTwo(env.global);
    EvalApplication(xs, env);
  }

  /** Two number arguments evaluate to themselves and leave the
      environment alone. */
  lemma NumeralArguments(xs: seq<Value>, env: Env)
    requires |xs| == 3 && xs[1].Fixnum? && xs[2].Fixnum?
    ensures EvalArgs(xs, 1, [], env) == ArgsOutcome(Ok(xs[1..]), env)
  {
    assert [] + [xs[1]] == [xs[1]];
    assert [xs[1]] + [xs[2]] == xs[1..];
    assert EvalArgs(xs, 3, xs[1..], env) == ArgsOutcome(Ok(xs[1..]), env);
    assert EvalArgs(xs, 2, [xs[1]], env) == ArgsOutcome(Ok(xs[1..]), env);
  }

  lemma OnePlusTwo(g: Table)
    ensures Call(Prim(Add), [Fixnum(1), Fixnum(2)], g) == Ok(Fixnum(3))
  {
    var a := [Fixnum(1), Fixnum(2)];
    assert forall i :: 0 <= i < |a| ==> a[i].Fixnum?;
    assert !AnyDouble(a) && !AnyStr(a) && AllHaveVal(a) && AllFixnum(a);
    assert a[1..] == [Fixnum(2)] && [Fixnum(2)][1..] == [];
    assert FoldInts(Add, 1, a[1..]) == Ok(3);
  }
}
