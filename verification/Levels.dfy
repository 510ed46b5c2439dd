/** A check of a schema under which its parsers terminate, and the types for which the
    building parser does not do as the skipping one (generator/generate.c). */
module Levels {
  import opened Agreement
  import opened Bytes
  import opened Converse
  import opened Parsers
  import opened Schema
  import opened Wrappers

  // ---- Ranks from levels ----

  type Level = int -> nat

  // The levels of all type names in a parameter, added up.
  function RankOf(level: Level, p: Param): nat {
    match p
    case Nat(_) => 0
    case Type(name, _, params) => level(name) + 1 + RankAll(level, params)
  }

  function RankAll(level: Level, ps: seq<Param>): nat {
    if ps == [] then 0 else RankOf(level, ps[0]) + RankAll(level, ps[1..])
  }

  function WeightOf(level: Level, e: Expr): nat {
    match e
    case TypeExpr(name, _, args) => level(name) + 1 + WeightAll(level, args)
    case _ => 0
  }

  function WeightAll(level: Level, es: seq<Expr>): nat {
    if es == [] then 0 else WeightOf(level, es[0]) + WeightAll(level, es[1..])
  }

  // No type variable occurs.
  predicate Closed(e: Expr) { !e.VarType? && (e.TypeExpr? ==> ClosedAll(e.args)) }

  predicate ClosedAll(es: seq<Expr>) { es == [] || (Closed(es[0]) && ClosedAll(es[1..])) }

  predicate Occurs(v: nat, e: Expr) { e == VarType(v) || (e.TypeExpr? && OccursIn(v, e.args)) }

  predicate OccursIn(v: nat, es: seq<Expr>) { es != [] && (Occurs(v, es[0]) || OccursIn(v, es[1..])) }

  // A field or element is a type variable of the result, or closed and, where it is
  // bare, of lower level than the type the constructor belongs to.
  predicate LevelOk(level: Level, name: int, result: Expr, e: Expr, bare: bool) {
    if e.VarType? then Occurs(e.v, result)
    else e.TypeExpr? && Closed(e) && (bare ==> WeightOf(level, e) <= level(name))
  }

  predicate FieldLevelOk(level: Level, name: int, result: Expr, f: Field) {
    match f
    case NumField(_, _) => true
    case TypeField(_, e, bare) => LevelOk(level, name, result, e, bare || (e.TypeExpr? && e.bare))
    case ArrayField(_, _, e) => LevelOk(level, name, result, e, e.TypeExpr? && e.bare)
  }

  // The check, constructor by constructor.
  ghost predicate Levelled(g: Schema, level: Level) {
    && (forall p :: g.rank(p) == RankOf(level, p))
    && forall name, c | name in g.types && c in g.types[name] ::
         c.result.TypeExpr? && c.result.name == name && forall f | f in c.fields :: FieldLevelOk(level, name, c.result, f)
  }

  // ---- Matching binds parts of the parameter ----

  ghost predicate Below(level: Level, env: Env, n: nat) { forall k | k in env :: RankOf(level, env[k]) <= n }

  lemma {:induction false} MatchBelow(level: Level, e: Expr, v: Param, env: Env, first: bool, n: nat)
    requires Below(level, env, n) && RankOf(level, v) <= n
    ensures Match(e, v, env, first).Some? ==> Below(level, Match(e, v, env, first).value, n)
    decreases e
  {
    if e.TypeExpr? && v.Type? && |v.params| == |e.args| {
      MatchAllBelow(level, e.args, v.params, env, n);
    }
  }

  lemma {:induction false} MatchAllBelow(level: Level, es: seq<Expr>, vs: seq<Param>, env: Env, n: nat)
    requires |es| == |vs| && Below(level, env, n) && RankAll(level, vs) <= n
    ensures MatchAll(es, vs, env).Some? ==> Below(level, MatchAll(es, vs, env).value, n)
    decreases es
  {
    if es != [] {
      MatchBelow(level, es[0], vs[0], env, false, n);
      var m := Match(es[0], vs[0], env, false);
      if m.Some? {
        MatchAllBelow(level, es[1..], vs[1..], m.value, n);
      }
    }
  }

  lemma {:induction false} MatchGrows(e: Expr, v: Param, env: Env, first: bool)
    ensures Match(e, v, env, first).Some? ==> Extends(env, Match(e, v, env, first).value)
    decreases e
  {
    if e.TypeExpr? && v.Type? && |v.params| == |e.args| {
      MatchAllGrows(e.args, v.params, env);
    }
  }

  lemma {:induction false} MatchAllGrows(es: seq<Expr>, vs: seq<Param>, env: Env)
    requires |es| == |vs|
    ensures MatchAll(es, vs, env).Some? ==> Extends(env, MatchAll(es, vs, env).value)
    decreases es
  {
    if es != [] {
      MatchGrows(es[0], vs[0], env, false);
      var m := Match(es[0], vs[0], env, false);
      if m.Some? {
        MatchAllGrows(es[1..], vs[1..], m.value);
      }
    }
  }

  lemma {:induction false} MatchBindsVar(e: Expr, v: Param, env: Env, first: bool, x: nat)
    requires Occurs(x, e) && Match(e, v, env, first).Some?
    ensures x in Match(e, v, env, first).value
    decreases e
  {
    if e.TypeExpr? {
      MatchAllBindsVar(e.args, v.params, env, x);
    }
  }

  lemma {:induction false} MatchAllBindsVar(es: seq<Expr>, vs: seq<Param>, env: Env, x: nat)
    requires |es| == |vs| && OccursIn(x, es) && MatchAll(es, vs, env).Some?
    ensures x in MatchAll(es, vs, env).value
    decreases es
  {
    var m := Match(es[0], vs[0], env, false);
    if Occurs(x, es[0]) {
      MatchBindsVar(es[0], vs[0], env, false, x);
      MatchAllGrows(es[1..], vs[1..], m.value);
    } else {
      MatchAllBindsVar(es[1..], vs[1..], m.value, x);
    }
  }

  // A closed expression stands for a parameter of its own weight.
  lemma {:induction false} CreateRank(level: Level, e: Expr, env: Env)
    requires Closed(e)
    ensures RankOf(level, Create(e, env)) == WeightOf(level, e)
    decreases e
  {
    if e.TypeExpr? {
      CreateAllRank(level, e.args, env, Create(e, env).params);
    }
  }

  lemma {:induction false} CreateAllRank(level: Level, es: seq<Expr>, env: Env, ps: seq<Param>)
    requires ClosedAll(es) && |ps| == |es| && forall i | 0 <= i < |es| :: ps[i] == Create(es[i], env)
    ensures RankAll(level, ps) == WeightAll(level, es)
    decreases es
  {
    if es != [] {
      CreateRank(level, es[0], env);
      CreateAllRank(level, es[1..], env, ps[1..]);
    }
  }

  // ---- The check is enough ----

  lemma {:induction false} ExprDescends(level: Level, name: int, result: Expr, t: Param, env: Env, e: Expr, bare: bool)
    requires result.TypeExpr? && result.name == name && LevelOk(level, name, result, e, bare)
    requires Match(result, t, map[], true).Some? && Extends(Match(result, t, map[], true).value, env)
    requires bare || e.VarType?
    ensures RankOf(level, Create(e, env)) < RankOf(level, t)
  {
    if e.VarType? {
      MatchBindsVar(result, t, map[], true, e.v);
      MatchAllBelow(level, result.args, t.params, map[], RankAll(level, t.params));
    } else {
      CreateRank(level, e, env);
    }
  }

  // A schema that passes the check has parsers that terminate.
  lemma {:induction false} LevelledIsAcyclic(g: Schema, level: Level)
    requires Levelled(g, level)
    ensures Acyclic(g)
  {
    forall name, c, t, env | name in g.types && c in g.types[name] && Binds(c, t, env) ensures Descends(g, c, t, env) {
      forall f | f in c.fields ensures FieldDescends(g, f, t, env) {
        assert FieldLevelOk(level, name, c.result, f);
        match f {
          case NumField(_, _) =>
          case TypeField(_, e, bare) =>
            if bare || e.VarType? || e.bare {
              ExprDescends(level, name, c.result, t, env, e, bare || (e.TypeExpr? && e.bare));
            }
          case ArrayField(_, _, e) =>
            if e.VarType? || e.bare {
              ExprDescends(level, name, c.result, t, env, e, e.TypeExpr? && e.bare);
            }
        }
      }
    }
  }

  // What the handler of an answer relies on: a buffer that was skipped to its end is
  // built to its end.
  lemma {:induction false} AnswerIsBuilt(g: Schema, level: Level, c: Call, data: seq<byte>)
    requires Levelled(g, level) && TameBare(g) && BytesOk(g) && CallOk(g, c)
    ensures Acyclic(g)
    ensures Skip(g, c, data, 0) == Skipped(true, |data|) ==>
              Fetch(g, c, data, 0).Built? && Fetch(g, c, data, 0).pos == |data|
  {
    LevelledIsAcyclic(g, level);
    FetchFollowsSkip(g, c, data, 0);
  }

  // ---- Bare types with several constructors ----

  // The first constructor that fits from one place.
  function FirstFit(g: Schema, name: int, t: Param, data: seq<byte>, pos: nat, i: nat): (r: Option<nat>)
    requires Acyclic(g) && pos <= |data| && name in g.types && i <= |g.types[name]|
    ensures r.Some? ==> i <= r.value < |g.types[name]| && SkipCtor(g, name, g.types[name][r.value], t, data, pos).ok
    decreases |g.types[name]| - i
  {
    if i == |g.types[name]| then None
    else if SkipCtor(g, name, g.types[name][i], t, data, pos).ok then Some(i)
    else FirstFit(g, name, t, data, pos, i + 1)
  }

  // The first one that fits from where those before it have left the cursor.
  function CarriedFit(g: Schema, name: int, t: Param, data: seq<byte>, pos: nat, i: nat): (r: Option<nat>)
    requires Acyclic(g) && pos <= |data| && name in g.types && i <= |g.types[name]|
    ensures r.Some? ==> i <= r.value < |g.types[name]|
    decreases |g.types[name]| - i
  {
    if i == |g.types[name]| then None
    else
      var r := SkipCtor(g, name, g.types[name][i], t, data, pos);
      if r.ok then Some(i) else CarriedFit(g, name, t, data, r.pos, i + 1)
  }

  lemma {:induction false} SkipsFirst(g: Schema, name: int, t: Param, data: seq<byte>, pos: nat, i: nat)
    requires Acyclic(g) && pos <= |data| && name in g.types && i <= |g.types[name]|
    ensures var first := FirstFit(g, name, t, data, pos, i);
            SkipTries(g, name, t, data, pos, i)
            == if first.None? then Skipped(false, pos) else SkipCtor(g, name, g.types[name][first.value], t, data, pos)
    decreases |g.types[name]| - i
  {
    if i < |g.types[name]| {
      SkipsFirst(g, name, t, data, pos, i + 1);
    }
  }

  lemma {:induction false} BuildsCarried(g: Schema, name: int, t: Param, data: seq<byte>, start: nat, pos: nat, i: nat)
    requires Acyclic(g) && start <= pos <= |data| && name in g.types && i <= |g.types[name]|
    ensures var carried := CarriedFit(g, name, t, data, pos, i);
            FetchTries(g, name, t, data, start, pos, i)
            == if carried.None? then Asserted else FetchCtor(g, name, g.types[name][carried.value], t, data, start)
    decreases |g.types[name]| - i
  {
    if i < |g.types[name]| {
      BuildsCarried(g, name, t, data, start, SkipCtor(g, name, g.types[name][i], t, data, pos).pos, i + 1);
    }
  }

  // For any bare type of a schema in which parameters fit, the parsers agree if and only
  // if no constructor fits, or one also fits from the carried cursor and the first such
  // one is skipped from the start like the first that fits from there.
  lemma {:induction false} TriesAgreeExactly(g: Schema, name: int, t: Param, data: seq<byte>, pos: nat)
    requires FitSchema(g) && pos <= |data| && name in g.types && forall c | c in g.types[name] :: BindsFit(g, c, t)
    ensures var cs := g.types[name];
            var (first, carried) := (FirstFit(g, name, t, data, pos, 0), CarriedFit(g, name, t, data, pos, 0));
            Follows(SkipTries(g, name, t, data, pos, 0), FetchTries(g, name, t, data, pos, pos, 0))
            <==> first.None?
                 || (carried.Some? && SkipCtor(g, name, cs[carried.value], t, data, pos) == SkipCtor(g, name, cs[first.value], t, data, pos))
  {
    SkipsFirst(g, name, t, data, pos, 0);
    BuildsCarried(g, name, t, data, pos, pos, 0);
    var carried := CarriedFit(g, name, t, data, pos, 0);
    if carried.Some? {
      CtorAgrees(g, name, g.types[name][carried.value], t, data, pos);
      CtorBack(g, name, g.types[name][carried.value], t, data, pos);
    }
  }

  // For two constructors: if and only if the first fits, or the second does not, or the
  // second also fits from where the first has failed.
  lemma {:induction false} PairAgreesExactly(g: Schema, name: int, t: Param, data: seq<byte>, pos: nat)
    requires GoodSchema(g) && pos <= |data| && name in g.types && |g.types[name]| == 2
    requires forall c | c in g.types[name] :: BindsOk(g, c, t)
    ensures var a := SkipCtor(g, name, g.types[name][0], t, data, pos);
            var b := SkipCtor(g, name, g.types[name][1], t, data, pos);
            var c := SkipCtor(g, name, g.types[name][1], t, data, a.pos);
            Follows(SkipTries(g, name, t, data, pos, 0), FetchTries(g, name, t, data, pos, pos, 0))
            <==> a.ok || !b.ok || c.ok
  {
    SkipsFirst(g, name, t, data, pos, 0);
    BuildsCarried(g, name, t, data, pos, pos, 0);
    var a := SkipCtor(g, name, g.types[name][0], t, data, pos);
    CtorAgrees(g, name, g.types[name][0], t, data, pos);
    CtorAgrees(g, name, g.types[name][1], t, data, pos);
    assert FirstFit(g, name, t, data, pos, 2) == CarriedFit(g, name, t, data, a.pos, 2) == None;
    assert CarriedFit(g, name, t, data, a.pos, 1)
        == if SkipCtor(g, name, g.types[name][1], t, data, a.pos).ok then Some(1) else None;
  }

  function Bare(name: int): Field { TypeField(None, TypeExpr(name, true, []), true) }

  // int ? = Int; two int int = Pair; one int = Pair;
  function PairSchema(): Schema {
    var two := Ctor(2, General, false, TypeExpr(2, false, []), [Bare(1), Bare(1)]);
    var one := Ctor(3, General, false, TypeExpr(2, false, []), [Bare(1)]);
    Schema(map[1 := [Number(1)], 2 := [two, one]], p => RankOf(PairLevel, p))
  }

  function PairLevel(name: int): nat { if name == 2 then 1 else 0 }

  lemma PairSchemaIsAcyclic()
    ensures Acyclic(PairSchema())
  {
    var level := PairLevel;
    forall name, c, f | name in PairSchema().types && c in PairSchema().types[name] && f in c.fields
      ensures FieldLevelOk(level, name, c.result, f)
    {
      assert f == Bare(1);
      assert WeightOf(level, TypeExpr(1, true, [])) == 1;
    }
    LevelledIsAcyclic(PairSchema(), level);
  }

  function PairCtor(i: nat): Ctor
    requires i < 2
  {
    PairSchema().types[2][i]
  }

  // In any schema a bare number is one word.
  lemma {:induction false} NumberIsOneWord(g: Schema, name: int, c: Ctor, t: Param, number: int, fs: seq<Field>, data: seq<byte>, pos: nat)
    requires Acyclic(g) && name in g.types && c in g.types[name] && Binds(c, t, map[]) && pos <= |data|
    requires fs != [] && fs[0] == Bare(number) && forall f | f in fs :: f in c.fields
    requires number in g.types && g.types[number] == [Number(number)]
    ensures var r := SkipFields(g, name, c, t, fs, map[], data, pos);
            if |data| - pos < 4 then r == Skipped(false, pos)
            else r == SkipFields(g, name, c, t, fs[1..], map[], data, pos + 4)
  {
    var call := FieldCall(fs[0], map[]);
    assert Create(TypeExpr(number, true, []), map[]).params == [];
    assert call == Call(number, true, Type(number, true, []));
    assert Match(Number(number).result, call.param, map[], true) == Some(map[]);
    assert Skip(g, call, data, pos) == SkipCtor(g, number, Number(number), call.param, data, pos);
    assert Skip(g, call, data, pos) == SkipBase(IntKind, data, pos);
    assert SkipField(g, name, c, t, fs[0], map[], data, pos) == Skip(g, call, data, pos);
  }

  function Number(name: int): Ctor { Ctor(1, IntKind, false, TypeExpr(name, false, []), []) }

  lemma {:induction false} PairCtorSkips(i: nat, data: seq<byte>, pos: nat)
    requires i < 2 && pos <= |data| == 4 && (pos == 0 || pos == 4)
    ensures Acyclic(PairSchema())
    ensures SkipCtor(PairSchema(), 2, PairCtor(i), Type(2, true, []), data, pos) == Skipped(i == 1 && pos == 0, 4)
  {
    PairSchemaIsAcyclic();
    var fs := PairCtor(i).fields;
    assert fs == fs[0..];
    NumberIsOneWord(PairSchema(), 2, PairCtor(i), Type(2, true, []), 1, fs, data, pos);
    if pos == 0 && i == 0 {
      assert fs[1..] == PairCtor(0).fields[1..];
      NumberIsOneWord(PairSchema(), 2, PairCtor(0), Type(2, true, []), 1, fs[1..], data, 4);
    }
  }

  // On one word the skipping parser gets by with the second constructor; the building
  // one has lost that word to the first and fails an assertion.
  lemma {:induction false} BareTriesCanDisagree(data: seq<byte>)
    requires |data| == 4
    ensures Acyclic(PairSchema())
    ensures var c := Call(2, true, Type(2, true, []));
            && Skip(PairSchema(), c, data, 0) == Skipped(true, 4)
            && Fetch(PairSchema(), c, data, 0) == Asserted
  {
    PairSchemaIsAcyclic();
    PairCtorSkips(0, data, 0);
    PairCtorSkips(1, data, 0);
    PairCtorSkips(1, data, 4);
    var g, t := PairSchema(), Type(2, true, []);
    assert g.types[2][0] == PairCtor(0) && g.types[2][1] == PairCtor(1);
    assert SkipTries(g, 2, t, data, 0, 0) == SkipTries(g, 2, t, data, 0, 1) == Skipped(true, 4);
    assert FetchTries(g, 2, t, data, 0, 0, 0) == FetchTries(g, 2, t, data, 0, 4, 1) == FetchTries(g, 2, t, data, 0, 4, 2);
  }
}
