/** The other direction of the agreement: what the building parser builds, the skipping
    one accepts, in schemas whose fields only name types that fit (generator/generate.c). */
module Converse {
  import opened Agreement
  import opened Bytes
  import opened Parsers
  import opened Schema
  import opened Wrappers

  // ---- Parameters that fit ----

  // The type is declared, the results of all its constructors match, and so on inside.
  ghost predicate ParamFits(g: Schema, p: Param) {
    p.Type? ==> p.name in g.types && ResultsMatch(g, p) && forall q | q in p.params :: ParamFits(g, q)
  }

  predicate ResultsMatch(g: Schema, p: Param)
    requires p.Type? && p.name in g.types
  {
    forall k | k in g.types[p.name] :: Match(k.result, p, map[], true).Some?
  }

  ghost predicate CallFits(g: Schema, c: Call) { c.param.Type? && c.param.name == c.name && ParamFits(g, c.param) }

  ghost predicate EnvFits(g: Schema, env: Env) { forall k | k in env :: ParamFits(g, env[k]) }

  ghost predicate FieldFits(g: Schema, f: Field, env: Env) {
    match f
    case NumField(_, _) => true
    case TypeField(_, _, _) => CallFits(g, FieldCall(f, env))
    case ArrayField(_, _, element) => CallFits(g, AnyCall(Create(element, env)))
  }

  ghost predicate FieldsFit(g: Schema, c: Ctor, env: Env) { forall f | f in c.fields :: FieldFits(g, f, env) }

  // A constructor whose parameters fit calls parsers only with parameters that fit.
  ghost predicate Fits(g: Schema) {
    forall name, c, t, env | name in g.types && c in g.types[name] && Binds(c, t, env) && EnvFits(g, env) ::
      FieldsFit(g, c, env)
  }

  // The constructors of base types have no request among their arguments.
  predicate BaseIncluded(g: Schema) {
    forall name, c | name in g.types && c in g.types[name] && IsBase(c.kind) :: !c.excl
  }

  ghost predicate FitSchema(g: Schema) { GoodSchema(g) && Fits(g) && BaseIncluded(g) }

  lemma {:induction false} MatchFits(g: Schema, e: Expr, v: Param, env: Env, first: bool)
    requires ParamFits(g, v) && EnvFits(g, env)
    ensures Match(e, v, env, first).Some? ==> EnvFits(g, Match(e, v, env, first).value)
    decreases e
  {
    if e.TypeExpr? && v.Type? && |v.params| == |e.args| {
      MatchAllFits(g, e.args, v.params, env);
    }
  }

  lemma {:induction false} MatchAllFits(g: Schema, es: seq<Expr>, vs: seq<Param>, env: Env)
    requires |es| == |vs| && EnvFits(g, env) && forall v | v in vs :: ParamFits(g, v)
    ensures MatchAll(es, vs, env).Some? ==> EnvFits(g, MatchAll(es, vs, env).value)
    decreases es
  {
    if es != [] {
      assert vs[0] in vs;
      MatchFits(g, es[0], vs[0], env, false);
      var m := Match(es[0], vs[0], env, false);
      if m.Some? {
        MatchAllFits(g, es[1..], vs[1..], m.value);
      }
    }
  }

  // ---- The converse ----

  // The building parser does no more than the skipping one: what it builds is accepted
  // and ends at the same place, and no null comes back.
  predicate Leads(r: Skipped, b: Outcome) { !b.Null? && (b.Built? ==> r == Skipped(true, b.pos)) }

  lemma BaseBack(k: BaseKind, data: seq<byte>, pos: nat)
    requires pos <= |data| && IsBase(k)
    ensures Leads(SkipBase(k, data, pos), FetchBase(k, data, pos))
    ensures Leads(SkipBase(StringKind, data, pos), FetchBase(BytesKind, data, pos))
  {
  }

  // Whatever the building parser builds, the skipping parser accepts.
  lemma {:induction false} FetchMeansSkip(g: Schema, c: Call, data: seq<byte>, pos: nat)
    requires FitSchema(g) && CallOk(g, c) && CallFits(g, c) && pos <= |data|
    ensures Leads(Skip(g, c, data, pos), Fetch(g, c, data, pos))
    decreases |data| - pos, if c.bare then g.rank(c.param) + 1 else 0, 5, 0
  {
    var cs := g.types[c.name];
    forall k | k in cs ensures BindsFit(g, k, c.param) {
      MatchOk(g, k.result, c.param, map[], true);
      MatchFits(g, k.result, c.param, map[], true);
    }
    if c.bare && |cs| == 1 {
      CtorBack(g, c.name, cs[0], c.param, data, pos);
    } else if c.bare {
      forall i | 0 <= i < |cs| - 1 ensures Stays(SkipCtor(g, c.name, cs[i], c.param, data, pos), pos) {
        FailsInPlace(g, c.name, cs[i], c.param, data, pos);
      }
      TriesBack(g, c.name, c.param, data, pos, 0);
    } else if Remaining(data, pos) >= 4 {
      FindIn(cs, MagicAt(data, pos));
      if Find(cs, MagicAt(data, pos)).Some? {
        CtorBack(g, c.name, Find(cs, MagicAt(data, pos)).value, c.param, data, pos + 4);
      }
    }
  }

  // What a constructor binds when it is called with t, which it matches.
  ghost predicate BindsFit(g: Schema, c: Ctor, t: Param) {
    var m := Match(c.result, t, map[], true);
    m.Some? && EnvOk(g, m.value) && EnvFits(g, m.value)
  }

  lemma {:induction false} TriesBack(g: Schema, name: int, t: Param, data: seq<byte>, pos: nat, i: nat)
    requires FitSchema(g) && pos <= |data| && name in g.types && i <= |g.types[name]|
    requires forall c | c in g.types[name] :: BindsFit(g, c, t)
    requires forall j | i <= j < |g.types[name]| - 1 :: Stays(SkipCtor(g, name, g.types[name][j], t, data, pos), pos)
    ensures Leads(SkipTries(g, name, t, data, pos, i), FetchTries(g, name, t, data, pos, pos, i))
    decreases |data| - pos, g.rank(t) + 1, 4, |g.types[name]| - i
  {
    if i < |g.types[name]| {
      CtorBack(g, name, g.types[name][i], t, data, pos);
      var r := SkipCtor(g, name, g.types[name][i], t, data, pos);
      if !r.ok {
        if i < |g.types[name]| - 1 {
          TriesBack(g, name, t, data, pos, i + 1);
        } else {
          assert FetchTries(g, name, t, data, pos, r.pos, i + 1) == Asserted;
        }
      }
    }
  }

  lemma {:induction false} CtorBack(g: Schema, name: int, c: Ctor, t: Param, data: seq<byte>, pos: nat)
    requires FitSchema(g) && pos <= |data| && name in g.types && c in g.types[name] && BindsFit(g, c, t)
    ensures Leads(SkipCtor(g, name, c, t, data, pos), FetchCtor(g, name, c, t, data, pos))
    decreases |data| - pos, g.rank(t) + 1, 3, 0
  {
    var m := Match(c.result, t, map[], true);
    if !c.excl {
      if IsBase(c.kind) {
        BaseBack(c.kind, data, pos);
      } else if c.kind == BytesKind {
        BytesBack(g, name, c, t, m.value, data, pos);
      } else {
        FieldsBack(g, name, c, t, c.fields, m.value, data, pos, if |g.types[name]| > 1 then c.magic else 0, []);
      }
    }
  }

  lemma {:induction false} BytesBack(g: Schema, name: int, c: Ctor, t: Param, env: Env, data: seq<byte>, pos: nat)
    requires FitSchema(g) && pos <= |data| && name in g.types && c in g.types[name]
    requires c.kind == BytesKind && Binds(c, t, env) && EnvFits(g, env)
    ensures Leads(SkipFields(g, name, c, t, c.fields, env, data, pos), FetchBase(BytesKind, data, pos))
  {
    assert BytesCtor(g, c) && FieldsFit(g, c, env);
    var f := c.fields[0];
    assert f in c.fields && c.fields[1..] == [] && FieldFits(g, f, env);
    var call := FieldCall(f, env);
    var k := g.types[call.name][0];
    assert k in g.types[call.name] && !k.excl;
    var r := SkipField(g, name, c, t, f, env, data, pos);
    assert r == Skip(g, call, data, pos) == SkipCtor(g, call.name, k, call.param, data, pos);
    assert r == SkipBase(StringKind, data, pos);
    assert SkipFields(g, name, c, t, [], env, data, r.pos) == Skipped(true, r.pos);
    BaseBack(StringKind, data, pos);
  }

  lemma {:induction false} FieldsBack(g: Schema, name: int, c: Ctor, t: Param, fs: seq<Field>, env: Env, data: seq<byte>, pos: nat,
                                      magic: int, done: seq<Data>)
    requires FitSchema(g) && pos <= |data| && name in g.types && c in g.types[name]
    requires Binds(c, t, env) && EnvOk(g, env) && EnvFits(g, env) && forall f | f in fs :: f in c.fields
    ensures Leads(SkipFields(g, name, c, t, fs, env, data, pos), FetchFields(g, name, c, t, fs, env, data, pos, magic, done))
    decreases |data| - pos, g.rank(t) + 1, 2, |fs|
  {
    if fs != [] {
      assert fs[0] in fs;
      var f := fs[0];
      if !Present(f, env) {
        FieldsBack(g, name, c, t, fs[1..], env, data, pos, magic, done + [Absent]);
      } else if f.NumField? {
        if Remaining(data, pos) >= 4 {
          var n := WordAt(data, pos);
          FieldsBack(g, name, c, t, fs[1..], Bind(env, f.v, n), data, pos + 4, magic, done + [Number(n)]);
        }
      } else {
        FieldBack(g, name, c, t, f, env, data, pos);
        var b := FetchField(g, name, c, t, f, env, data, pos);
        if b.Built? {
          FieldsBack(g, name, c, t, fs[1..], env, data, b.pos, magic, done + [DataOf(b)]);
        }
      }
    }
  }

  lemma {:induction false} FieldBack(g: Schema, name: int, c: Ctor, t: Param, f: Field, env: Env, data: seq<byte>, pos: nat)
    requires FitSchema(g) && pos <= |data| && name in g.types && c in g.types[name]
    requires Binds(c, t, env) && EnvOk(g, env) && EnvFits(g, env) && f in c.fields && !f.NumField?
    ensures Leads(SkipField(g, name, c, t, f, env, data, pos), FetchField(g, name, c, t, f, env, data, pos))
    decreases |data| - pos, g.rank(t) + 1, 1, 0
  {
    assert FieldOk(g, f) && Descends(g, c, t, env) && FieldsFit(g, c, env);
    assert FieldFits(g, f, env);
    if f.TypeField? {
      FieldCallOk(g, f, env);
      FetchMeansSkip(g, FieldCall(f, env), data, pos);
    } else {
      ElementCallOk(g, f, env);
      var n := Create(f.multiplicity, env);
      ItemsBack(g, t, AnyCall(Create(f.element, env)), if n.Nat? && n.n > 0 then n.n else 0, data, pos, []);
    }
  }

  lemma {:induction false} ItemsBack(g: Schema, t: Param, call: Call, count: nat, data: seq<byte>, pos: nat, done: seq<Data>)
    requires FitSchema(g) && pos <= |data| && (call.bare ==> g.rank(call.param) < g.rank(t))
    requires CallOk(g, call) && CallFits(g, call)
    ensures Leads(SkipItems(g, t, call, count, data, pos), FetchItems(g, t, call, count, data, pos, done))
    decreases |data| - pos, g.rank(t) + 1, 0, count
  {
    if count > 0 {
      FetchMeansSkip(g, call, data, pos);
      var b := Fetch(g, call, data, pos);
      if b.Built? {
        ItemsBack(g, t, call, count - 1, data, b.pos, done + [DataOf(b)]);
      }
    }
  }

  // Both directions: the same buffers are skipped and built, up to the same places, and
  // every other one fails an assertion.
  lemma {:induction false} SkipsIffBuilds(g: Schema, c: Call, data: seq<byte>, pos: nat)
    requires FitSchema(g) && CallOk(g, c) && CallFits(g, c) && pos <= |data|
    ensures var (r, b) := (Skip(g, c, data, pos), Fetch(g, c, data, pos));
            if r.ok then b.Built? && b.pos == r.pos else b.Asserted?
  {
    FetchFollowsSkip(g, c, data, pos);
    FetchMeansSkip(g, c, data, pos);
  }

  // ---- Where nothing fits ----

  // A constructor whose result does not match is refused by the skipping parser; the
  // building one gives a null and stays in place.
  lemma UnmatchedIsNull(g: Schema, name: int, c: Ctor, t: Param, data: seq<byte>, pos: nat)
    requires Acyclic(g) && pos <= |data| && name in g.types && c in g.types[name]
    requires !c.excl && Match(c.result, t, map[], true).None?
    ensures SkipCtor(g, name, c, t, data, pos) == Skipped(false, pos) && FetchCtor(g, name, c, t, data, pos) == Null(pos)
  {
  }

  // one Missing = One; with no type Missing
  function GapSchema(): Schema {
    Schema(map[1 := [GapCtor()]], p => 0)
  }

  function GapCtor(): Ctor { Ctor(1, General, false, TypeExpr(1, false, []), [TypeField(None, TypeExpr(9, false, []), false)]) }

  // A field of a type that is not declared is refused by the skipping parser; the
  // building one puts a null there and goes on.
  lemma {:induction false} UndeclaredIsBuilt(data: seq<byte>)
    ensures Acyclic(GapSchema())
    ensures var c := Call(1, true, Type(1, true, []));
            Skip(GapSchema(), c, data, 0) == Skipped(false, 0) && Fetch(GapSchema(), c, data, 0) == Built(Record(0, [Absent]), 0)
  {
    var (g, c, t) := (GapSchema(), GapCtor(), Type(1, true, []));
    assert Acyclic(g);
    assert Match(c.result, t, map[], true) == Some(map[]);
    var call := FieldCall(c.fields[0], map[]);
    assert call.name == 9 && SkipField(g, 1, c, t, c.fields[0], map[], data, 0) == Skip(g, call, data, 0) == Skipped(false, 0);
    assert FetchField(g, 1, c, t, c.fields[0], map[], data, 0) == Fetch(g, call, data, 0) == Null(0);
    assert c.fields[1..] == [] && [] + [Absent] == [Absent];
    assert SkipFields(g, 1, c, t, c.fields, map[], data, 0) == Skipped(false, 0);
    assert FetchFields(g, 1, c, t, [], map[], data, 0, 0, [Absent]) == Built(Record(0, [Absent]), 0);
    assert FetchFields(g, 1, c, t, c.fields, map[], data, 0, 0, []) == Built(Record(0, [Absent]), 0);
    assert SkipCtor(g, 1, c, t, data, 0) == Skipped(false, 0);
    assert FetchCtor(g, 1, c, t, data, 0) == Built(Record(0, [Absent]), 0);
    assert g.types[1] == [c];
  }
}
