/** Where the checking and the building parser agree, and where they do not
    (generator/generate.c; relied on by src/query/query.cpp). */
module Agreement {
  import opened Bytes
  import opened Parsers
  import opened Schema
  import opened Wrappers

  // ---- Tame bare types ----

  // A field that is one number or one value of a base type.
  predicate OneBase(g: Schema, f: Field) {
    f.NumField? ||
    (f.TypeField? && f.e.TypeExpr? && (f.bare || f.e.bare) && f.e.name in g.types
     && |g.types[f.e.name]| == 1 && (g.types[f.e.name][0].excl || IsBase(g.types[f.e.name][0].kind)))
  }

  // A constructor whose skipping parser fails before it moves, if it fails at all.
  predicate StaysPut(g: Schema, c: Ctor) {
    c.excl || IsBase(c.kind) || c.fields == [] || (|c.fields| == 1 && OneBase(g, c.fields[0]))
  }

  // A type has one constructor, or all but the last of them stay put.
  predicate Tame(g: Schema, name: int) {
    name in g.types ==> |g.types[name]| == 1 || forall i | 0 <= i < |g.types[name]| - 1 :: StaysPut(g, g.types[name][i])
  }

  ghost predicate ParamOk(g: Schema, p: Param) {
    p.Type? ==> (p.bare ==> Tame(g, p.name)) && forall q | q in p.params :: ParamOk(g, q)
  }

  ghost predicate ExprOk(g: Schema, e: Expr) {
    e.TypeExpr? ==> (e.bare ==> Tame(g, e.name)) && forall f | f in e.args :: ExprOk(g, f)
  }

  ghost predicate FieldOk(g: Schema, f: Field) {
    match f
    case NumField(_, _) => true
    case TypeField(_, e, bare) => ExprOk(g, e) && (bare && e.TypeExpr? ==> Tame(g, e.name))
    case ArrayField(_, _, element) => ExprOk(g, element)
  }

  // Only tame types are used bare.
  ghost predicate TameBare(g: Schema) {
    forall name, c, f | name in g.types && c in g.types[name] && f in c.fields :: FieldOk(g, f)
  }

  ghost predicate CallOk(g: Schema, c: Call) { (c.bare ==> Tame(g, c.name)) && ParamOk(g, c.param) }

  // The type of byte strings is one bare field of the type of strings.
  ghost predicate BytesOk(g: Schema) {
    forall name, c | name in g.types && c in g.types[name] && c.kind == BytesKind :: BytesCtor(g, c)
  }

  ghost predicate BytesCtor(g: Schema, c: Ctor) {
    && |c.fields| == 1 && c.fields[0].TypeField? && c.fields[0].exist.None?
    && var e := c.fields[0].e;
    && e.TypeExpr? && e.bare && e.name in g.types
    && |g.types[e.name]| == 1 && g.types[e.name][0].kind == StringKind
  }

  // ---- Parameters stay in order ----

  ghost predicate EnvOk(g: Schema, env: Env) { forall k | k in env :: ParamOk(g, env[k]) }

  lemma {:induction false} MatchOk(g: Schema, e: Expr, v: Param, env: Env, first: bool)
    requires ParamOk(g, v) && EnvOk(g, env)
    ensures Match(e, v, env, first).Some? ==> EnvOk(g, Match(e, v, env, first).value)
    decreases e
  {
    if e.TypeExpr? && v.Type? && |v.params| == |e.args| {
      MatchAllOk(g, e.args, v.params, env);
    }
  }

  lemma {:induction false} MatchAllOk(g: Schema, es: seq<Expr>, vs: seq<Param>, env: Env)
    requires |es| == |vs| && EnvOk(g, env) && forall v | v in vs :: ParamOk(g, v)
    ensures MatchAll(es, vs, env).Some? ==> EnvOk(g, MatchAll(es, vs, env).value)
    decreases es
  {
    if es != [] {
      assert vs[0] in vs;
      MatchOk(g, es[0], vs[0], env, false);
      var m := Match(es[0], vs[0], env, false);
      if m.Some? {
        MatchAllOk(g, es[1..], vs[1..], m.value);
      }
    }
  }

  lemma {:induction false} CreateOk(g: Schema, e: Expr, env: Env)
    requires ExprOk(g, e) && EnvOk(g, env)
    ensures ParamOk(g, Create(e, env))
    decreases e
  {
    if e.TypeExpr? {
      var p := Create(e, env);
      forall q | q in p.params ensures ParamOk(g, q) {
        var i :| 0 <= i < |p.params| && p.params[i] == q;
        assert e.args[i] in e.args;
        CreateOk(g, e.args[i], env);
      }
    }
  }

  lemma {:induction false} FieldCallOk(g: Schema, f: Field, env: Env)
    requires f.TypeField? && FieldOk(g, f) && EnvOk(g, env)
    ensures CallOk(g, FieldCall(f, env))
  {
    CreateOk(g, f.e, env);
  }

  lemma {:induction false} ElementCallOk(g: Schema, f: Field, env: Env)
    requires f.ArrayField? && FieldOk(g, f) && EnvOk(g, env)
    ensures CallOk(g, AnyCall(Create(f.element, env)))
  {
    CreateOk(g, f.element, env);
  }

  // ---- Agreement ----

  ghost predicate GoodSchema(g: Schema) { Acyclic(g) && TameBare(g) && BytesOk(g) }

  // The building parser does as the skipping one: no assertion fails, no null comes
  // back, and the cursor stops at the same place.
  predicate Follows(r: Skipped, b: Outcome) { r.ok ==> b.Built? && b.pos == r.pos }

  lemma {:induction false} BaseAgrees(k: BaseKind, data: seq<byte>, pos: nat)
    requires pos <= |data| && IsBase(k)
    ensures Follows(SkipBase(k, data, pos), FetchBase(k, data, pos))
    ensures Follows(SkipBase(StringKind, data, pos), FetchBase(BytesKind, data, pos))
  {
  }

  // Whatever the skipping parser accepts, the building parser builds.
  lemma {:induction false} FetchFollowsSkip(g: Schema, c: Call, data: seq<byte>, pos: nat)
    requires GoodSchema(g) && CallOk(g, c) && pos <= |data|
    ensures Follows(Skip(g, c, data, pos), Fetch(g, c, data, pos))
    decreases |data| - pos, if c.bare then g.rank(c.param) + 1 else 0, 5, 0
  {
    if c.name in g.types {
      var cs := g.types[c.name];
      forall k | k in cs ensures BindsOk(g, k, c.param) {
        MatchOk(g, k.result, c.param, map[], true);
      }
      if c.bare && |cs| == 1 {
        CtorAgrees(g, c.name, cs[0], c.param, data, pos);
      } else if c.bare {
        forall i | 0 <= i < |cs| - 1 ensures Stays(SkipCtor(g, c.name, cs[i], c.param, data, pos), pos) {
          FailsInPlace(g, c.name, cs[i], c.param, data, pos);
        }
        TriesAgreeIfNoneMoves(g, c.name, c.param, data, pos, 0);
      } else if Remaining(data, pos) >= 4 {
        FindIn(cs, MagicAt(data, pos));
        if Find(cs, MagicAt(data, pos)).Some? {
          CtorAgrees(g, c.name, Find(cs, MagicAt(data, pos)).value, c.param, data, pos + 4);
        }
      }
    }
  }

  predicate Stays(r: Skipped, pos: nat) { r.ok || r.pos == pos }

  lemma {:induction false} FailsInPlace(g: Schema, name: int, c: Ctor, t: Param, data: seq<byte>, pos: nat)
    requires Acyclic(g) && pos <= |data| && name in g.types && c in g.types[name] && StaysPut(g, c)
    ensures Stays(SkipCtor(g, name, c, t, data, pos), pos)
  {
    var m := Match(c.result, t, map[], true);
    if !c.excl && m.Some? && !IsBase(c.kind) && c.fields != [] {
      var f := c.fields[0];
      assert f in c.fields && c.fields[1..] == [];
      if f.TypeField? {
        var call := FieldCall(f, m.value);
        assert SkipField(g, name, c, t, f, m.value, data, pos) == Skip(g, call, data, pos);
        assert Stays(Skip(g, call, data, pos), pos);
        assert SkipFields(g, name, c, t, [], m.value, data, Skip(g, call, data, pos).pos).ok;
      } else if Remaining(data, pos) >= 4 {
        assert SkipFields(g, name, c, t, [], Bind(m.value, f.v, WordAt(data, pos)), data, pos + 4).ok;
      }
      assert SkipFields(g, name, c, t, [], m.value, data, pos).ok;
    }
  }

  // The tries agree when no failing one but the last moves the cursor.
  lemma {:induction false} TriesAgreeIfNoneMoves(g: Schema, name: int, t: Param, data: seq<byte>, pos: nat, i: nat)
    requires GoodSchema(g) && pos <= |data| && name in g.types && i <= |g.types[name]|
    requires forall c | c in g.types[name] :: BindsOk(g, c, t)
    requires forall j | i <= j < |g.types[name]| - 1 :: Stays(SkipCtor(g, name, g.types[name][j], t, data, pos), pos)
    ensures Follows(SkipTries(g, name, t, data, pos, i), FetchTries(g, name, t, data, pos, pos, i))
    decreases |data| - pos, g.rank(t) + 1, 4, |g.types[name]| - i
  {
    if i < |g.types[name]| {
      CtorAgrees(g, name, g.types[name][i], t, data, pos);
      if !SkipCtor(g, name, g.types[name][i], t, data, pos).ok {
        if i < |g.types[name]| - 1 {
          TriesAgreeIfNoneMoves(g, name, t, data, pos, i + 1);
        } else {
          assert !SkipTries(g, name, t, data, pos, i + 1).ok;
        }
      }
    }
  }

  // What a constructor binds when it is called with t.
  ghost predicate BindsOk(g: Schema, c: Ctor, t: Param) {
    Match(c.result, t, map[], true).Some? ==> EnvOk(g, Match(c.result, t, map[], true).value)
  }

  lemma {:induction false} CtorAgrees(g: Schema, name: int, c: Ctor, t: Param, data: seq<byte>, pos: nat)
    requires GoodSchema(g) && pos <= |data| && name in g.types && c in g.types[name] && BindsOk(g, c, t)
    ensures Follows(SkipCtor(g, name, c, t, data, pos), FetchCtor(g, name, c, t, data, pos))
    decreases |data| - pos, g.rank(t) + 1, 3, 0
  {
    var m := Match(c.result, t, map[], true);
    if !c.excl && m.Some? {
      if IsBase(c.kind) {
        BaseAgrees(c.kind, data, pos);
      } else if c.kind == BytesKind {
        BytesAgree(g, name, c, t, m.value, data, pos);
      } else {
        FieldsAgree(g, name, c, t, c.fields, m.value, data, pos, if |g.types[name]| > 1 then c.magic else 0, []);
      }
    }
  }

  lemma {:induction false} BytesAgree(g: Schema, name: int, c: Ctor, t: Param, env: Env, data: seq<byte>, pos: nat)
    requires GoodSchema(g) && pos <= |data| && name in g.types && c in g.types[name]
    requires c.kind == BytesKind && Binds(c, t, env)
    ensures Follows(SkipFields(g, name, c, t, c.fields, env, data, pos), FetchBase(BytesKind, data, pos))
  {
    assert BytesCtor(g, c);
    var f := c.fields[0];
    var call := FieldCall(f, env);
    var k := g.types[call.name][0];
    assert f in c.fields && c.fields[1..] == [];
    var r := SkipField(g, name, c, t, f, env, data, pos);
    assert r == Skip(g, call, data, pos) == SkipCtor(g, call.name, k, call.param, data, pos);
    assert r.ok ==> r == SkipBase(StringKind, data, pos);
    assert SkipFields(g, name, c, t, [], env, data, r.pos) == Skipped(true, r.pos);
    BaseAgrees(StringKind, data, pos);
  }

  lemma {:induction false} FieldsAgree(g: Schema, name: int, c: Ctor, t: Param, fs: seq<Field>, env: Env, data: seq<byte>, pos: nat,
                                       magic: int, done: seq<Data>)
    requires GoodSchema(g) && pos <= |data| && name in g.types && c in g.types[name]
    requires Binds(c, t, env) && EnvOk(g, env) && forall f | f in fs :: f in c.fields
    ensures Follows(SkipFields(g, name, c, t, fs, env, data, pos), FetchFields(g, name, c, t, fs, env, data, pos, magic, done))
    decreases |data| - pos, g.rank(t) + 1, 2, |fs|
  {
    if fs != [] {
      assert fs[0] in fs;
      var f := fs[0];
      if !Present(f, env) {
        FieldsAgree(g, name, c, t, fs[1..], env, data, pos, magic, done + [Absent]);
      } else if f.NumField? {
        if Remaining(data, pos) >= 4 {
          var n := WordAt(data, pos);
          FieldsAgree(g, name, c, t, fs[1..], Bind(env, f.v, n), data, pos + 4, magic, done + [Number(n)]);
        }
      } else {
        FieldAgrees(g, name, c, t, f, env, data, pos);
        var r := SkipField(g, name, c, t, f, env, data, pos);
        if r.ok {
          var b := FetchField(g, name, c, t, f, env, data, pos);
          FieldsAgree(g, name, c, t, fs[1..], env, data, r.pos, magic, done + [DataOf(b)]);
        }
      }
    }
  }

  lemma {:induction false} FieldAgrees(g: Schema, name: int, c: Ctor, t: Param, f: Field, env: Env, data: seq<byte>, pos: nat)
    requires GoodSchema(g) && pos <= |data| && name in g.types && c in g.types[name]
    requires Binds(c, t, env) && EnvOk(g, env) && f in c.fields && !f.NumField?
    ensures Follows(SkipField(g, name, c, t, f, env, data, pos), FetchField(g, name, c, t, f, env, data, pos))
    decreases |data| - pos, g.rank(t) + 1, 1, 0
  {
    assert FieldOk(g, f);
    assert Descends(g, c, t, env);
    if f.TypeField? {
      FieldCallOk(g, f, env);
      FetchFollowsSkip(g, FieldCall(f, env), data, pos);
    } else {
      ElementCallOk(g, f, env);
      var n := Create(f.multiplicity, env);
      ItemsAgree(g, t, AnyCall(Create(f.element, env)), if n.Nat? && n.n > 0 then n.n else 0, data, pos, []);
    }
  }

  lemma {:induction false} ItemsAgree(g: Schema, t: Param, call: Call, count: nat, data: seq<byte>, pos: nat, done: seq<Data>)
    requires GoodSchema(g) && pos <= |data| && (call.bare ==> g.rank(call.param) < g.rank(t)) && CallOk(g, call)
    ensures Follows(SkipItems(g, t, call, count, data, pos), FetchItems(g, t, call, count, data, pos, done))
    decreases |data| - pos, g.rank(t) + 1, 0, count
  {
    if count > 0 {
      FetchFollowsSkip(g, call, data, pos);
      var r := Skip(g, call, data, pos);
      if r.ok {
        ItemsAgree(g, t, call, count - 1, data, r.pos, done + [DataOf(Fetch(g, call, data, pos))]);
      }
    }
  }
}
