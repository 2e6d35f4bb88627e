/** `Warp::EnvTable` (main.rb:301-337): a table of bindings and a list of
    extra frames searched after it, and the root table `ENV` holds
    (main.rb:380-514). Frames are kept as the tables they wrap. */
module Environment {
  import opened Base
  import opened Values

  type Table = map<Key, Value>

  /** The state `find` consults: the table and its extra frames, in order. */
  datatype Env = Env(global: Table, frames: seq<Table>)

  /** `exists?(env, var_ref)`: `fetch(var_ref, nil)` is truthy. Ruby nil is
      the only stored value that is not. */
  predicate Exists(t: Table, k: Key) {
    k in t && t[k] != Nil
  }

  /** The `@additional.find` search: the first frame that has the key. */
  function FirstFrame(frames: seq<Table>, k: Key): (r: Result<Value>)
    ensures r.Ok? ==> exists i :: 0 <= i < |frames| && Exists(frames[i], k) && r.value == frames[i][k]
                                  && forall j :: 0 <= j < i ==> !Exists(frames[j], k)
    ensures r.Err? ==> r.error == Unbound && forall i :: 0 <= i < |frames| ==> !Exists(frames[i], k)
  {
    if frames == [] then Err(Unbound)
    else if Exists(frames[0], k) then Ok(frames[0][k])
    else
      var r := FirstFrame(frames[1..], k);
      assert forall j :: 1 <= j < |frames| ==> frames[j] == frames[1..][j - 1];
      r
  }

  /** `find(var_ref)`: the table's own entry, else the first frame's. */
  function FindIn(g: Table, frames: seq<Table>, k: Key): (r: Result<Value>)
    ensures Exists(g, k) ==> r == Ok(g[k])
    ensures !Exists(g, k) ==> r == FirstFrame(frames, k)
    ensures r.Ok? <==> Exists(g, k) || exists i :: 0 <= i < |frames| && Exists(frames[i], k)
    ensures r.Ok? ==> r.value != Nil
  {
    if Exists(g, k) then Ok(g[k]) else FirstFrame(frames, k)
  }

  /** Binding a name makes `find` give the new value, unless it is nil,
      in which case the frames are searched. */
  lemma FindAfterBinding(g: Table, frames: seq<Table>, k: Key, v: Value)
    ensures v != Nil ==> FindIn(g[k := v], frames, k) == Ok(v)
    ensures v == Nil ==> FindIn(g[k := v], frames, k) == FirstFrame(frames, k)
  {
  }

  /** Binding a name leaves every other name's lookup as it was. */
  lemma FindOtherAfterBinding(g: Table, frames: seq<Table>, k: Key, v: Value, other: Key)
    requires other != k
    ensures FindIn(g[k := v], frames, other) == FindIn(g, frames, other)
  {
    assert Exists(g[k := v], other) == Exists(g, other);
  }

  /** A frame added at the end is searched only when nothing before it
      has the key. */
  lemma FindAfterFrame(g: Table, frames: seq<Table>, t: Table, k: Key)
    ensures FindIn(g, frames, k).Ok? ==> FindIn(g, frames + [t], k) == FindIn(g, frames, k)
    ensures FindIn(g, frames, k).Err? ==>
      FindIn(g, frames + [t], k) == (if Exists(t, k) then Ok(t[k]) else Err(Unbound))
  {
    FirstFrameAppend(frames, t, k);
  }

  lemma {:induction false} FirstFrameAppend(frames: seq<Table>, t: Table, k: Key)
    ensures FirstFrame(frames, k).Ok? ==> FirstFrame(frames + [t], k) == FirstFrame(frames, k)
    ensures FirstFrame(frames, k).Err? ==>
      FirstFrame(frames + [t], k) == (if Exists(t, k) then Ok(t[k]) else Err(Unbound))
  {
    if frames == [] {
      assert frames + [t] == [t];
      assert [t][1..] == [];
    } else {
      assert (frames + [t])[0] == frames[0];
      assert (frames + [t])[1..] == frames[1..] + [t];
      FirstFrameAppend(frames[1..], t, k);
    }
  }

  class EnvTable {
    var global: Table
    var additional: seq<Table>

    /** `EnvTable.new(env)`. */
    constructor (env: Table)
      ensures global == env && additional == []
    {
      global := env;
      additional := [];
    }

    function Abs(): Env
      reads this
    {
      Env(global, additional)
    }

    /** `find(var_ref)`: the own table, then the frames in order. */
    method Find(k: Key) returns (r: Result<Value>)
      ensures r == FindIn(global, additional, k)
    {
      if k in global && global[k] != Nil {
        return Ok(global[k]);
      }
      var i := 0;
      while i < |additional| && !(k in additional[i] && additional[i][k] != Nil)
        invariant 0 <= i <= |additional|
        invariant FirstFrame(additional, k) == FirstFrame(additional[i..], k)
      {
        assert additional[i..][1..] == additional[i + 1..];
        i := i + 1;
      }
      if i < |additional| {
        r := Ok(additional[i][k]);
      } else {
        r := Err(Unbound);
      }
    }

    /** `add_frame(env)`: one more frame, searched last. */
    method AddFrame(env: Table)
      modifies this
      ensures global == old(global) && additional == old(additional) + [env]
    {
      additional := additional + [env];
    }

    /** `add_var(var, val)`: overwrites without any check. */
    method AddVar(k: Key, v: Value)
      modifies this
      ensures global == old(global)[k := v] && additional == old(additional)
    {
      global := global[k := v];
    }
  }

  /** The name each builtin lambda is stored under in `ENV`: two strings
      and otherwise Ruby symbols. */
  function BuiltinKey(op: Builtin): Key {
    match op
    case Newline => KStr("#:n")
    case ShowGlobals => KStr("#:g")
    case Add => KSym("+")
    case Mul => KSym("*")
    case Sub => KSym("-")
    case Mod => KSym("%")
    case Less => KSym("<")
    case Greater => KSym(">")
    case Equal => KSym("=")
    case Concat => KSym("++")
    case BoolP => KSym("bool?")
    case FixnumP => KSym("fixnum?")
    case StrP => KSym("str?")
    case SymP => KSym("sym?")
    case BoundP => KSym("bound?")
    case StrCast => KSym("str!")
    case SymCast => KSym("sym!")
    case DoubleP => KSym("double?")
    case Cons => KSym("cons")
    case Head => KSym("head")
    case Tail => KSym("tail")
    case MakeList => KSym("list")
  }

  /** The builtins in the order `ENV` lists them. */
  const AllBuiltins: seq<Builtin> := [
    Newline, ShowGlobals, Add, Mul, Sub, Mod, Less, Greater, Equal, Concat,
    BoolP, FixnumP, StrP, SymP, BoundP, StrCast, SymCast, DoubleP,
    Cons, Head, Tail, MakeList
  ]

  /** The builtin a key names, if any: the inverse of `BuiltinKey`. */
  function BuiltinNamed(k: Key): (r: Option<Builtin>)
    ensures r.Some? ==> BuiltinKey(r.value) == k
  {
    match k
    case KStr("#:n") => Some(Newline)
    case KStr("#:g") => Some(ShowGlobals)
    case KSym("+") => Some(Add)
    case KSym("*") => Some(Mul)
    case KSym("-") => Some(Sub)
    case KSym("%") => Some(Mod)
    case KSym("<") => Some(Less)
    case KSym(">") => Some(Greater)
    case KSym("=") => Some(Equal)
    case KSym("++") => Some(Concat)
    case KSym("bool?") => Some(BoolP)
    case KSym("fixnum?") => Some(FixnumP)
    case KSym("str?") => Some(StrP)
    case KSym("sym?") => Some(SymP)
    case KSym("bound?") => Some(BoundP)
    case KSym("str!") => Some(StrCast)
    case KSym("sym!") => Some(SymCast)
    case KSym("double?") => Some(DoubleP)
    case KSym("cons") => Some(Cons)
    case KSym("head") => Some(Head)
    case KSym("tail") => Some(Tail)
    case KSym("list") => Some(MakeList)
    case _ => None
  }

  /** Distinct builtins are registered under distinct names. */
  lemma BuiltinNamedKey(op: Builtin)
    ensures BuiltinNamed(BuiltinKey(op)) == Some(op)
  {
  }

  /** Binds each builtin of `ops` under its name. */
  function Register(ops: seq<Builtin>): (t: Table)
    ensures forall k :: k in t ==> BuiltinNamed(k).Some? && BuiltinNamed(k).value in ops && t[k] == Prim(BuiltinNamed(k).value)
  {
    if ops == [] then map[]
    else
      BuiltinNamedKey(ops[0]);
      Register(ops[1..])[BuiltinKey(ops[0]) := Prim(ops[0])]
  }

  /** The root table `ENV` starts with. */
  function InitialTable(): Table {
    Register(AllBuiltins)
  }

  lemma {:induction false} RegisterFinds(ops: seq<Builtin>, op: Builtin)
    requires op in ops
    ensures BuiltinKey(op) in Register(ops) && Register(ops)[BuiltinKey(op)] == Prim(op)
  {
    if ops[0] != op {
      RegisterFinds(ops[1..], op);
      BuiltinNamedKey(ops[0]);
      BuiltinNamedKey(op);
    }
  }

  /** Every builtin is found under its own name at start-up. */
  lemma InitialFinds(op: Builtin)
    ensures FindIn(InitialTable(), [], BuiltinKey(op)) == Ok(Prim(op))
  {
    assert op in AllBuiltins;
    RegisterFinds(AllBuiltins, op);
  }

  /** Nothing else is bound at start-up, and each entry is a builtin under its own name. */
  lemma InitialOnlyBuiltins(k: Key)
    requires k in InitialTable()
    ensures InitialTable()[k].Prim? && BuiltinKey(InitialTable()[k].op) == k
  {
  }
}
