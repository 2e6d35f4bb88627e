/** `evaluate` (main.rb:515-554). `Eval` says what evaluating a form
    gives and what the root `ENV` looks like afterwards; `Evaluate` is the
    Ruby procedure, which looks names up in and adds bindings to an
    `EnvTable`, proved to agree with it. */
module Evaluator {
  import opened Base
  import opened Values
  import opened Environment
  import opened Builtins

  /** The result of evaluating a form and the environment left behind. */
  datatype Outcome = Outcome(result: Result<Value>, env: Env)

  /** The same, for the arguments of an application. */
  datatype ArgsOutcome = ArgsOutcome(result: Result<seq<Value>>, env: Env)

  /** What evaluation may do to the environment: the frames stay, and no
      name disappears from the root table. */
  predicate Grows(before: Env, after: Env) {
    after.frames == before.frames && forall k :: k in before.global ==> k in after.global
  }

  /** A form with no `bind` anywhere in it. */
  predicate BindFree(e: Value) {
    match e
    case List(xs) =>
      !(xs != [] && xs[0] == Symbol("bind")) && forall i :: 0 <= i < |xs| ==> BindFree(xs[i])
    case _ => true
  }

  /** `proc.(*args)`: only the builtin lambdas can be called. */
  function Call(f: Value, args: seq<Value>, g: Table): Result<Value> {
    if f.Prim? then Apply(f.op, args, g) else Err(NotCallable)
  }

  /** `evaluate(input)` against `env`. */
  function Eval(e: Value, env: Env): (o: Outcome)
    ensures Grows(env, o.env)
    ensures BindFree(e) ==> o.env == env
    decreases e, 2
  {
    match e
    case Fixnum(_) => Outcome(Ok(e), env)
    case Double => Outcome(Ok(e), env)
    case Boolean(_) => Outcome(Ok(e), env)
    case Str(_) => Outcome(Ok(e), env)
    case Char(t) =>
      var f := FindIn(env.global, env.frames, KStr(t));
      Outcome(if f.Err? then Err(f.error) else Call(f.value, [], env.global), env)
    case Symbol(n) => Outcome(FindIn(env.global, env.frames, KSym(n)), env)
    case List(xs) =>
      if xs == [] || !xs[0].Symbol? then Outcome(Err(CannotEvaluate), env)
      else if xs[0].name == "quote" then Outcome(Ok(Seq(xs[1..])), env)
      else if xs[0].name == "bind" then EvalBind(xs, env)
      else if xs[0].name == "if" then EvalIf(xs, env)
      else EvalApply(xs, env)
    case _ => Outcome(Err(NoMethod), env)
  }

  /** `(bind name value)`: the name (evaluated when it is a List) must not
      be bound in the root table; the value is evaluated and stored, and the
      name is looked up again. */
  function EvalBind(xs: seq<Value>, env: Env): (o: Outcome)
    requires xs != [] && xs[0] == Symbol("bind")
    ensures Grows(env, o.env)
    decreases xs, 1
  {
    var n := if |xs| < 2 then Outcome(Err(NoMethod), env)
             else if xs[1].List? then Eval(xs[1], env)
             else Outcome(Ok(xs[1]), env);
    if n.result.Err? then n
    else
      var k := ValOf(n.result.value);
      if k.Err? then Outcome(Err(k.error), n.env)
      else if Exists(n.env.global, k.value) then Outcome(Err(AlreadyBound), n.env)
      else
        var v := if |xs| < 3 then Outcome(Err(NoMethod), n.env) else Eval(xs[2], n.env);
        if v.result.Err? then v
        else
          var g := v.env.global[k.value := v.result.value];
          Outcome(FindIn(g, v.env.frames, k.value), Env(g, v.env.frames))
  }

  /** `(if test success error)`: exactly one branch is evaluated, chosen by
      whether the test's `bool` is the text "true". */
  function EvalIf(xs: seq<Value>, env: Env): (o: Outcome)
    requires xs != [] && xs[0] == Symbol("if")
    ensures Grows(env, o.env)
    ensures BindFree(List(xs)) ==> o.env == env
    decreases xs, 1
  {
    var t := if |xs| < 2 then Outcome(Err(NoMethod), env) else Eval(xs[1], env);
    if t.result.Err? then t
    else
      var b := Truth(t.result.value);
      if b.Err? then Outcome(Err(b.error), t.env)
      else if b.value == "true" then
        if |xs| < 3 then Outcome(Err(NoMethod), t.env) else Eval(xs[2], t.env)
      else
        if |xs| < 4 then Outcome(Err(NoMethod), t.env) else Eval(xs[3], t.env)
  }

  /** `(name arg ...)`: the name is looked up first, then the arguments are
      evaluated left to right, then the lambda is called. */
  function EvalApply(xs: seq<Value>, env: Env): (o: Outcome)
    requires xs != [] && xs[0].Symbol?
    ensures Grows(env, o.env)
    ensures BindFree(List(xs)) ==> o.env == env
    decreases xs, 1
  {
    var f := FindIn(env.global, env.frames, KSym(xs[0].name));
    if f.Err? then Outcome(Err(f.error), env)
    else
      var a := EvalArgs(xs, 1, [], env);
      if a.result.Err? then Outcome(Err(a.result.error), a.env)
      else Outcome(Call(f.value, a.result.value, a.env.global), a.env)
  }

  /** `args.map { |arg| evaluate(arg) }` from position `i`, with the values
      so far in `acc`; the first failure stops it. */
  function EvalArgs(xs: seq<Value>, i: nat, acc: seq<Value>, env: Env): (o: ArgsOutcome)
    requires i <= |xs|
    ensures Grows(env, o.env)
    ensures (forall j :: i <= j < |xs| ==> BindFree(xs[j])) ==> o.env == env
    ensures o.result.Ok? ==> |o.result.value| == |acc| + |xs| - i
    decreases xs, 0, |xs| - i
  {
    if i == |xs| then ArgsOutcome(Ok(acc), env)
    else
      var o := Eval(xs[i], env);
      if o.result.Err? then ArgsOutcome(Err(o.result.error), o.env)
      else EvalArgs(xs, i + 1, acc + [o.result.value], o.env)
  }

  /** `evaluate(input)`, changing the root `ENV` in place. */
  method Evaluate(env: EnvTable, input: Value) returns (r: Result<Value>)
    modifies env
    ensures Outcome(r, env.Abs()) == Eval(input, old(env.Abs()))
    decreases input, 2
  {
    match input
    case Fixnum(_) => r := Ok(input);
    case Double => r := Ok(input);
    case Boolean(_) => r := Ok(input);
    case Str(_) => r := Ok(input);
    case Char(t) =>
      var f := env.Find(KStr(t));
      if f.Err? {
        r := Err(f.error);
      } else {
        r := Call(f.value, [], env.global);
      }
    case Symbol(n) => r := env.Find(KSym(n));
    case List(xs) =>
      if xs == [] || !xs[0].Symbol? {
        r := Err(CannotEvaluate);
      } else if xs[0].name == "quote" {
        r := Ok(Seq(xs[1..]));
      } else if xs[0].name == "bind" {
        r := EvaluateBind(env, xs);
      } else if xs[0].name == "if" {
        r := EvaluateIf(env, xs);
      } else {
        r := EvaluateApply(env, xs);
      }
    case Seq(_) => r := Err(NoMethod);
    case Nil => r := Err(NoMethod);
    case Prim(_) => r := Err(NoMethod);
  }

  method EvaluateBind(env: EnvTable, xs: seq<Value>) returns (r: Result<Value>)
    requires xs != [] && xs[0] == Symbol("bind")
    modifies env
    ensures Outcome(r, env.Abs()) == EvalBind(xs, old(env.Abs()))
    decreases xs, 1
  {
    var name: Result<Value>;
    if |xs| < 2 {
      name := Err(NoMethod);
    } else if xs[1].List? {
      name := Evaluate(env, xs[1]);
    } else {
      name := Ok(xs[1]);
    }
    if name.Err? {
      return name;
    }
    var k := ValOf(name.value);
    if k.Err? {
      return Err(k.error);
    }
    if Exists(env.global, k.value) {
      return Err(AlreadyBound);
    }
    var v: Result<Value>;
    if |xs| < 3 {
      v := Err(NoMethod);
    } else {
      v := Evaluate(env, xs[2]);
    }
    if v.Err? {
      return v;
    }
    env.AddVar(k.value, v.value);
    r := env.Find(k.value);
  }

  method EvaluateIf(env: EnvTable, xs: seq<Value>) returns (r: Result<Value>)
    requires xs != [] && xs[0] == Symbol("if")
    modifies env
    ensures Outcome(r, env.Abs()) == EvalIf(xs, old(env.Abs()))
    decreases xs, 1
  {
    var t: Result<Value>;
    if |xs| < 2 {
      t := Err(NoMethod);
    } else {
      t := Evaluate(env, xs[1]);
    }
    if t.Err? {
      return t;
    }
    var b := Truth(t.value);
    if b.Err? {
      return Err(b.error);
    }
    if b.value == "true" {
      if |xs| < 3 {
        r := Err(NoMethod);
      } else {
        r := Evaluate(env, xs[2]);
      }
    } else {
      if |xs| < 4 {
        r := Err(NoMethod);
      } else {
        r := Evaluate(env, xs[3]);
      }
    }
  }

  method EvaluateApply(env: EnvTable, xs: seq<Value>) returns (r: Result<Value>)
    requires xs != [] && xs[0].Symbol?
    modifies env
    ensures Outcome(r, env.Abs()) == EvalApply(xs, old(env.Abs()))
    decreases xs, 1
  {
    var f := env.Find(KSym(xs[0].name));
    if f.Err? {
      return Err(f.error);
    }
    var args := EvaluateArgs(env, xs);
    if args.Err? {
      return Err(args.error);
    }
    r := Call(f.value, args.value, env.global);
  }

  /** The `map` over the arguments, as a loop. */
  method EvaluateArgs(env: EnvTable, xs: seq<Value>) returns (r: Result<seq<Value>>)
    requires xs != []
    modifies env
    ensures ArgsOutcome(r, env.Abs()) == EvalArgs(xs, 1, [], old(env.Abs()))
    decreases xs, 0
  {
    var args: seq<Value> := [];
    var i := 1;
    while i < |xs|
      invariant 1 <= i <= |xs|
      invariant EvalArgs(xs, 1, [], old(env.Abs())) == EvalArgs(xs, i, args, env.Abs())
    {
      var v := Evaluate(env, xs[i]);
      if v.Err? {
        return Err(v.error);
      }
      args := args + [v.value];
      i := i + 1;
    }
    r := Ok(args);
  }
}
