/** Schemas of TL types, and the parameters the generated parsers pass at run time
    (generator/generate.c, src/auto/auto.h). */
module Schema {
  import opened Wrappers

  // A run-time parameter: a number or a type, bare or not, with its parameters.
  datatype Param = Nat(n: int) | Type(name: int, bare: bool, params: seq<Param>)

  // What stands for a parameter in the schema.
  datatype Expr = VarType(v: nat) | VarNum(w: nat, dif: int) | NatConst(n: int)
                | TypeExpr(name: int, bare: bool, args: seq<Expr>)

  // A field may depend on a bit of a number read before it.
  datatype Exist = Exist(v: nat, bit: nat)

  datatype Field = NumField(exist: Option<Exist>, v: nat)
                 | TypeField(exist: Option<Exist>, e: Expr, bare: bool)
                 | ArrayField(exist: Option<Exist>, multiplicity: Expr, element: Expr)

  // Constructors of base types are parsed by the generator's own code.
  datatype BaseKind = IntKind | LongKind | DoubleKind | StringKind | BytesKind | General

  // excl: the constructor has an argument that is itself a request.
  datatype Ctor = Ctor(magic: int, kind: BaseKind, excl: bool, result: Expr, fields: seq<Field>)

  // rank: a measure for the nesting of bare types.
  datatype Schema = Schema(types: map<int, seq<Ctor>>, rank: Param -> nat)

  type Env = map<nat, Param>

  // ---- Binding and creating parameters ----

  // gen_uni_skip: compares a pattern with a parameter and binds its variables. At the
  // top a bare parameter will do as well.
  function Match(e: Expr, v: Param, env: Env, first: bool): Option<Env>
    decreases e
  {
    match e
    case VarType(i) =>
      if v.Nat? then None
      else if i !in env then Some(env[i := v])
      else if env[i] == v then Some(env) else None
    case VarNum(i, dif) =>
      if v.Type? then None
      else if i !in env then Some(env[i := Nat(v.n + dif)])
      else if env[i] == Nat(v.n + dif) then Some(env) else None
    case NatConst(n) => if v == Nat(n) then Some(env) else None
    case TypeExpr(name, _, args) =>
      if v.Nat? || v.name != name || (v.bare && !first) || |v.params| != |args| then None
      else MatchAll(args, v.params, env)
  }

  function MatchAll(es: seq<Expr>, vs: seq<Param>, env: Env): Option<Env>
    requires |es| == |vs|
    decreases es
  {
    if es == [] then Some(env)
    else
      var m := Match(es[0], vs[0], env, false);
      if m.None? then None else MatchAll(es[1..], vs[1..], m.value)
  }

  function NumberOf(env: Env, v: nat): int { if v in env && env[v].Nat? then env[v].n else 0 }

  // gen_create: the parameter an expression stands for.
  function Create(e: Expr, env: Env): Param
    decreases e
  {
    match e
    case VarType(i) => if i in env then env[i] else Nat(0)
    case VarNum(i, dif) => Nat(NumberOf(env, i) + dif)
    case NatConst(n) => Nat(n)
    case TypeExpr(name, bare, args) => Type(name, bare, seq(|args|, i requires 0 <= i < |args| => Create(args[i], env)))
  }

  // A number just read; the generator never lets one be read twice.
  function Bind(env: Env, v: nat, n: int): Env { if v in env then env else env[v := Nat(n)] }

  predicate Extends(env: Env, more: Env) { forall k | k in env :: k in more && more[k] == env[k] }

  predicate Present(f: Field, env: Env) {
    f.exist.None? || (NumberOf(env, f.exist.value.v) / Pow2(f.exist.value.bit)) % 2 == 1
  }

  function Pow2(n: nat): (p: nat)
    ensures p > 0
  {
    if n == 0 then 1 else 2 * Pow2(n - 1)
  }

  // ---- Which parser a field calls ----

  // A call of the parser of a type, bare or not, with a parameter.
  datatype Call = Call(name: int, bare: bool, param: Param)

  // skip_type_any and its like choose by the parameter.
  function AnyCall(p: Param): Call { if p.Nat? then Call(0, false, p) else Call(p.name, p.bare, p) }

  function FieldCall(f: Field, env: Env): Call
    requires f.TypeField?
  {
    var p := Create(f.e, env);
    if f.e.TypeExpr? then Call(f.e.name, f.bare || f.e.bare, p) else AnyCall(p)
  }

  // ---- Acyclic use of bare types ----

  // What a constructor called with parameter t may have bound.
  ghost predicate Binds(c: Ctor, t: Param, env: Env) {
    Match(c.result, t, map[], true).Some? && Extends(Match(c.result, t, map[], true).value, env)
  }

  // Every bare call has a smaller rank than the one that makes it.
  ghost predicate Descends(g: Schema, c: Ctor, t: Param, env: Env) {
    forall f | f in c.fields :: FieldDescends(g, f, t, env)
  }

  ghost predicate FieldDescends(g: Schema, f: Field, t: Param, env: Env) {
    match f
    case NumField(_, _) => true
    case TypeField(_, _, _) => FieldCall(f, env).bare ==> g.rank(FieldCall(f, env).param) < g.rank(t)
    case ArrayField(_, _, element) => AnyCall(Create(element, env)).bare ==> g.rank(Create(element, env)) < g.rank(t)
  }

  ghost predicate Acyclic(g: Schema) {
    forall name, c, t, env | name in g.types && c in g.types[name] && Binds(c, t, env) :: Descends(g, c, t, env)
  }
}
