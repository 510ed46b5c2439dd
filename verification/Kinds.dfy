/** A check of a schema by the kinds of its types, under which parameters always fit and
    the two parsers do the same (generator/generate.c). */
module Kinds {
  import opened Agreement
  import opened Bytes
  import opened Converse
  import opened Levels
  import opened Parsers
  import opened Schema
  import opened Wrappers

  // For each type, which of its parameters are types; the others are numbers.
  type Signature = map<int, seq<bool>>

  function VarOf(e: Expr): nat
    requires e.VarType? || e.VarNum?
  {
    if e.VarType? then e.v else e.w
  }

  predicate IsVar(e: Expr, isType: bool) { if isType then e.VarType? else e.VarNum? }

  // Different variables of the given kinds.
  predicate Variables(es: seq<Expr>, kinds: seq<bool>) {
    && |es| == |kinds| && (forall i | 0 <= i < |es| :: IsVar(es[i], kinds[i]))
    && forall i, j | 0 <= i < j < |es| :: VarOf(es[i]) != VarOf(es[j])
  }

  // A type whose variables are among vars, or a number.
  predicate ExprKinded(sig: Signature, vars: set<nat>, e: Expr, isType: bool)
    decreases e, 1
  {
    if !isType then e.VarNum? || e.NatConst?
    else match e
      case VarType(v) => v in vars
      case TypeExpr(name, _, args) => name in sig && ArgsKinded(sig, vars, args, sig[name])
      case _ => false
  }

  predicate ArgsKinded(sig: Signature, vars: set<nat>, es: seq<Expr>, kinds: seq<bool>)
    decreases es, 0
  {
    |es| == |kinds| && forall i | 0 <= i < |es| :: ExprKinded(sig, vars, es[i], kinds[i])
  }

  predicate FieldKinded(sig: Signature, vars: set<nat>, f: Field) {
    match f
    case NumField(_, _) => true
    case TypeField(_, e, _) => ExprKinded(sig, vars, e, true)
    case ArrayField(_, _, element) => ExprKinded(sig, vars, element, true)
  }

  function TypeVars(es: seq<Expr>): set<nat> { set i | 0 <= i < |es| && es[i].VarType? :: es[i].v }

  // The result of a constructor is its type over variables, and its fields use them.
  predicate CtorKinded(sig: Signature, name: int, c: Ctor) {
    && c.result.TypeExpr? && c.result.name == name && name in sig && Variables(c.result.args, sig[name])
    && forall f | f in c.fields :: FieldKinded(sig, TypeVars(c.result.args), f)
  }

  predicate WellKinded(g: Schema, sig: Signature) {
    && sig.Keys == g.types.Keys
    && forall name, c | name in g.types && c in g.types[name] :: CtorKinded(sig, name, c)
  }

  // ---- Variables match whatever is of their kind ----

  predicate OfKinds(vs: seq<Param>, kinds: seq<bool>) {
    |vs| == |kinds| && forall i | 0 <= i < |vs| :: vs[i].Type? == kinds[i]
  }

  lemma {:induction false} VariablesMatch(es: seq<Expr>, kinds: seq<bool>, vs: seq<Param>, env: Env)
    requires Variables(es, kinds) && OfKinds(vs, kinds) && forall i | 0 <= i < |es| :: VarOf(es[i]) !in env
    ensures MatchAll(es, vs, env).Some?
    decreases |es|
  {
    if es != [] {
      var m := Match(es[0], vs[0], env, false);
      assert forall i | 0 <= i < |es[1..]| :: es[1..][i] == es[i + 1] && VarOf(es[i + 1]) != VarOf(es[0]);
      VariablesMatch(es[1..], kinds[1..], vs[1..], m.value);
    }
  }

  // A type variable is only ever bound to a type.
  ghost predicate TypesBound(vars: set<nat>, env: Env) { forall v | v in vars :: v in env && env[v].Type? }

  lemma {:induction false} MatchBindsTypes(es: seq<Expr>, vs: seq<Param>, env: Env, i: nat)
    requires |es| == |vs| && i < |es| && es[i].VarType? && MatchAll(es, vs, env).Some?
    ensures var m := MatchAll(es, vs, env).value; es[i].v in m && m[es[i].v].Type?
    decreases |es|
  {
    var m := Match(es[0], vs[0], env, false);
    if i == 0 {
      MatchAllGrows(es[1..], vs[1..], m.value);
    } else {
      MatchBindsTypes(es[1..], vs[1..], m.value, i - 1);
    }
  }

  lemma {:induction false} BoundTypes(c: Ctor, t: Param, env: Env)
    requires c.result.TypeExpr? && Binds(c, t, env)
    ensures TypesBound(TypeVars(c.result.args), env)
  {
    forall v | v in TypeVars(c.result.args) ensures v in env && env[v].Type? {
      var i :| 0 <= i < |c.result.args| && c.result.args[i] == VarType(v);
      MatchBindsTypes(c.result.args, t.params, map[], i);
    }
  }

  // ---- What is created fits ----

  lemma {:induction false} CreateFits(g: Schema, sig: Signature, vars: set<nat>, e: Expr, env: Env, isType: bool)
    requires WellKinded(g, sig) && ExprKinded(sig, vars, e, isType) && TypesBound(vars, env) && EnvFits(g, env)
    ensures var p := Create(e, env); p.Type? == isType && ParamFits(g, p)
    decreases e
  {
    if e.TypeExpr? {
      var p := Create(e, env);
      forall i | 0 <= i < |e.args| ensures p.params[i].Type? == sig[e.name][i] && ParamFits(g, p.params[i]) {
        CreateFits(g, sig, vars, e.args[i], env, sig[e.name][i]);
      }
      KindsMatch(g, sig, p);
    }
  }

  lemma {:induction false} KindsMatch(g: Schema, sig: Signature, p: Param)
    requires WellKinded(g, sig) && p.Type? && p.name in g.types && OfKinds(p.params, sig[p.name])
    ensures ResultsMatch(g, p)
  {
    forall k | k in g.types[p.name] ensures Match(k.result, p, map[], true).Some? {
      assert CtorKinded(sig, p.name, k);
      VariablesMatch(k.result.args, sig[p.name], p.params, map[]);
    }
  }

  // In a schema that passes the check everything the parsers are called with fits.
  lemma {:induction false} KindedFits(g: Schema, sig: Signature)
    requires WellKinded(g, sig)
    ensures Fits(g)
  {
    forall name, c, t, env | name in g.types && c in g.types[name] && Binds(c, t, env) && EnvFits(g, env)
      ensures FieldsFit(g, c, env)
    {
      assert CtorKinded(sig, name, c);
      var vars := TypeVars(c.result.args);
      BoundTypes(c, t, env);
      forall f | f in c.fields ensures FieldFits(g, f, env) {
        assert FieldKinded(sig, vars, f);
        match f {
          case NumField(_, _) =>
          case TypeField(_, e, _) => CreateFits(g, sig, vars, e, env, true);
          case ArrayField(_, _, element) => CreateFits(g, sig, vars, element, env, true);
        }
      }
    }
  }

  // For a schema checked by levels and kinds and any type it can name, closed: a buffer
  // is skipped up to some place if and only if it is built up to there, and every other
  // one fails an assertion.
  lemma {:induction false} CheckedSchemasAgree(g: Schema, level: Level, sig: Signature, e: Expr, data: seq<byte>, pos: nat)
    requires Levelled(g, level) && TameBare(g) && BytesOk(g) && BaseIncluded(g) && WellKinded(g, sig)
    requires e.TypeExpr? && ExprKinded(sig, {}, e, true) && ExprOk(g, e) && pos <= |data|
    ensures Acyclic(g)
    ensures var c := AnyCall(Create(e, map[]));
            var (r, b) := (Skip(g, c, data, pos), Fetch(g, c, data, pos));
            if r.ok then b.Built? && b.pos == r.pos else b.Asserted?
  {
    LevelledIsAcyclic(g, level);
    KindedFits(g, sig);
    CreateFits(g, sig, {}, e, map[], true);
    CreateOk(g, e, map[]);
    SkipsIffBuilds(g, AnyCall(Create(e, map[])), data, pos);
  }
}
