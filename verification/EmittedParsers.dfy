/** The emitted parsers as they run: a cursor that moves over a buffer, and loops over
    fields, constructors and multiplicities (generator/generate.c). */
module EmittedParsers {
  import opened Bytes
  import Codec
  import opened Parsers
  import opened Schema
  import opened Wrappers

  class InBuffer {
    const data: seq<byte>
    var ptr: nat

    constructor (data: seq<byte>)
      ensures this.data == data && ptr == 0
    {
      this.data, ptr := data, 0;
    }

    ghost predicate Valid()
      reads this
    {
      ptr <= |data|
    }

    // ---- Skipping ----

    method SkipType(g: Schema, c: Call) returns (ok: bool)
      requires Acyclic(g) && Valid()
      modifies this
      ensures Valid() && Skipped(ok, ptr) == Skip(g, c, data, old(ptr))
      decreases |data| - ptr, if c.bare then g.rank(c.param) + 1 else 0, 5, 0
    {
      if c.name !in g.types {
        return false;
      }
      var cs := g.types[c.name];
      if c.bare {
        if |cs| == 1 {
          ok := SkipConstructor(g, c.name, cs[0], c.param);
          return;
        }
        ok := TryConstructors(g, c.name, c.param);
        return;
      }
      if |data| - ptr < 4 {
        return false;
      }
      var magic := MagicAt(data, ptr);
      ptr := ptr + 4;
      FindIn(cs, magic);
      var k := Find(cs, magic);
      if k.None? {
        return false;
      }
      ok := SkipConstructor(g, c.name, k.value, c.param);
    }

    // The cursor is put back after each constructor that does not fit.
    method TryConstructors(g: Schema, name: int, t: Param) returns (ok: bool)
      requires Acyclic(g) && Valid() && name in g.types
      modifies this
      ensures Valid() && Skipped(ok, ptr) == SkipTries(g, name, t, data, old(ptr), 0)
      decreases |data| - ptr, g.rank(t) + 1, 4, 0
    {
      var save := ptr;
      var cs := g.types[name];
      var i := 0;
      while i < |cs|
        invariant 0 <= i <= |cs| && ptr == save
        invariant SkipTries(g, name, t, data, save, i) == SkipTries(g, name, t, data, save, 0)
      {
        ok := SkipConstructor(g, name, cs[i], t);
        if ok {
          return;
        }
        ptr := save;
        i := i + 1;
      }
      return false;
    }

    method SkipConstructor(g: Schema, name: int, c: Ctor, t: Param) returns (ok: bool)
      requires Acyclic(g) && Valid() && name in g.types && c in g.types[name]
      modifies this
      ensures Valid() && Skipped(ok, ptr) == SkipCtor(g, name, c, t, data, old(ptr))
      decreases |data| - ptr, g.rank(t) + 1, 3, 0
    {
      if c.excl {
        return false;
      }
      var m := Match(c.result, t, map[], true);
      if m.None? {
        return false;
      }
      if IsBase(c.kind) {
        var r := SkipBase(c.kind, data, ptr);
        ptr := r.pos;
        return r.ok;
      }
      ok := SkipArguments(g, name, c, t, m.value);
    }

    method SkipArguments(g: Schema, name: int, c: Ctor, t: Param, bound: Env) returns (ok: bool)
      requires Acyclic(g) && Valid() && name in g.types && c in g.types[name] && Binds(c, t, bound)
      modifies this
      ensures Valid() && Skipped(ok, ptr) == SkipFields(g, name, c, t, c.fields, bound, data, old(ptr))
      decreases |data| - ptr, g.rank(t) + 1, 2, 0
    {
      var env := bound;
      var i := 0;
      while i < |c.fields|
        invariant 0 <= i <= |c.fields| && old(ptr) <= ptr && Valid() && Binds(c, t, env)
        invariant SkipFields(g, name, c, t, c.fields[i..], env, data, ptr)
                  == SkipFields(g, name, c, t, c.fields, bound, data, old(ptr))
      {
        var f := c.fields[i];
        assert c.fields[i..][0] == f && c.fields[i..][1..] == c.fields[i + 1..];
        if Present(f, env) {
          if f.NumField? {
            if |data| - ptr < 4 {
              return false;
            }
            env := Bind(env, f.v, WordAt(data, ptr));
            ptr := ptr + 4;
          } else {
            ok := SkipArgument(g, name, c, t, f, env);
            if !ok {
              return;
            }
          }
        }
        i := i + 1;
      }
      return true;
    }

    method SkipArgument(g: Schema, name: int, c: Ctor, t: Param, f: Field, env: Env) returns (ok: bool)
      requires Acyclic(g) && Valid() && name in g.types && c in g.types[name]
      requires Binds(c, t, env) && f in c.fields && !f.NumField?
      modifies this
      ensures Valid() && Skipped(ok, ptr) == SkipField(g, name, c, t, f, env, data, old(ptr))
      decreases |data| - ptr, g.rank(t) + 1, 1, 0
    {
      assert Descends(g, c, t, env);
      if f.TypeField? {
        ok := SkipType(g, FieldCall(f, env));
        return;
      }
      var n := Create(f.multiplicity, env);
      var multiplicity := if n.Nat? && n.n > 0 then n.n else 0;
      var call := AnyCall(Create(f.element, env));
      ghost var first := multiplicity;
      while multiplicity > 0
        invariant 0 <= multiplicity && old(ptr) <= ptr && Valid()
        invariant SkipItems(g, t, call, multiplicity, data, ptr) == SkipItems(g, t, call, first, data, old(ptr))
      {
        ok := SkipType(g, call);
        if !ok {
          return;
        }
        multiplicity := multiplicity - 1;
      }
      return true;
    }

    // ---- Building ----

    // The outcome at the cursor; where an assertion fails the cursor means nothing.
    ghost predicate Ends(r: Outcome)
      reads this
    {
      Valid() && (r.Asserted? || r.pos == ptr)
    }

    method FetchType(g: Schema, c: Call) returns (r: Outcome)
      requires Acyclic(g) && Valid()
      modifies this
      ensures r == Fetch(g, c, data, old(ptr)) && Ends(r)
      decreases |data| - ptr, if c.bare then g.rank(c.param) + 1 else 0, 5, 0
    {
      if c.name !in g.types {
        return Null(ptr);
      }
      var cs := g.types[c.name];
      if c.bare {
        if |cs| == 1 {
          r := FetchConstructor(g, c.name, cs[0], c.param);
          return;
        }
        r := FetchByTrying(g, c.name, c.param);
        return;
      }
      if |data| - ptr < 4 {
        return Asserted;
      }
      var magic := MagicAt(data, ptr);
      FindIn(cs, magic);
      var k := Find(cs, magic);
      if k.None? {
        return Asserted;
      }
      ptr := ptr + 4;
      r := FetchConstructor(g, c.name, k.value, c.param);
    }

    // Here the cursor is put back only when a constructor fits.
    method FetchByTrying(g: Schema, name: int, t: Param) returns (r: Outcome)
      requires Acyclic(g) && Valid() && name in g.types
      modifies this
      ensures r == FetchTries(g, name, t, data, old(ptr), old(ptr), 0) && Ends(r)
      decreases |data| - ptr, g.rank(t) + 1, 4, 0
    {
      var save := ptr;
      var cs := g.types[name];
      var i := 0;
      while i < |cs|
        invariant 0 <= i <= |cs| && save <= ptr && Valid()
        invariant FetchTries(g, name, t, data, save, ptr, i) == FetchTries(g, name, t, data, save, save, 0)
      {
        var ok := SkipConstructor(g, name, cs[i], t);
        if ok {
          ptr := save;
          r := FetchConstructor(g, name, cs[i], t);
          return;
        }
        i := i + 1;
      }
      return Asserted;
    }

    method FetchConstructor(g: Schema, name: int, c: Ctor, t: Param) returns (r: Outcome)
      requires Acyclic(g) && Valid() && name in g.types && c in g.types[name]
      modifies this
      ensures r == FetchCtor(g, name, c, t, data, old(ptr)) && Ends(r)
      decreases |data| - ptr, g.rank(t) + 1, 3, 0
    {
      if c.excl {
        return Asserted;
      }
      var m := Match(c.result, t, map[], true);
      if m.None? {
        return Null(ptr);
      }
      if IsBase(c.kind) || c.kind == BytesKind {
        r := FetchBase(c.kind, data, ptr);
        if r.Built? {
          ptr := r.pos;
        }
        return;
      }
      r := FetchArguments(g, name, c, t, m.value, if |g.types[name]| > 1 then c.magic else 0);
    }

    method FetchArguments(g: Schema, name: int, c: Ctor, t: Param, bound: Env, magic: int) returns (r: Outcome)
      requires Acyclic(g) && Valid() && name in g.types && c in g.types[name] && Binds(c, t, bound)
      modifies this
      ensures r == FetchFields(g, name, c, t, c.fields, bound, data, old(ptr), magic, []) && Ends(r)
      decreases |data| - ptr, g.rank(t) + 1, 2, 0
    {
      var env := bound;
      var fields := [];
      var i := 0;
      while i < |c.fields|
        invariant 0 <= i <= |c.fields| && old(ptr) <= ptr && Valid() && Binds(c, t, env)
        invariant FetchFields(g, name, c, t, c.fields[i..], env, data, ptr, magic, fields)
                  == FetchFields(g, name, c, t, c.fields, bound, data, old(ptr), magic, [])
      {
        var f := c.fields[i];
        assert c.fields[i..][0] == f && c.fields[i..][1..] == c.fields[i + 1..];
        var item := Absent;
        if Present(f, env) {
          if f.NumField? {
            if |data| - ptr < 4 {
              return Asserted;
            }
            item := Number(WordAt(data, ptr));
            env := Bind(env, f.v, WordAt(data, ptr));
            ptr := ptr + 4;
          } else {
            r := FetchArgument(g, name, c, t, f, env);
            if r.Asserted? {
              return;
            }
            item := DataOf(r);
          }
        }
        fields := fields + [item];
        i := i + 1;
      }
      return Built(Record(magic, fields), ptr);
    }

    method FetchArgument(g: Schema, name: int, c: Ctor, t: Param, f: Field, env: Env) returns (r: Outcome)
      requires Acyclic(g) && Valid() && name in g.types && c in g.types[name]
      requires Binds(c, t, env) && f in c.fields && !f.NumField?
      modifies this
      ensures r == FetchField(g, name, c, t, f, env, data, old(ptr)) && Ends(r)
      decreases |data| - ptr, g.rank(t) + 1, 1, 0
    {
      assert Descends(g, c, t, env);
      if f.TypeField? {
        r := FetchType(g, FieldCall(f, env));
        return;
      }
      var n := Create(f.multiplicity, env);
      var multiplicity := if n.Nat? && n.n > 0 then n.n else 0;
      var call := AnyCall(Create(f.element, env));
      var items := [];
      var i := 0;
      while i < multiplicity
        invariant 0 <= i <= multiplicity && old(ptr) <= ptr && Valid()
        invariant FetchItems(g, t, call, multiplicity - i, data, ptr, items) == FetchItems(g, t, call, multiplicity, data, old(ptr), [])
      {
        r := FetchType(g, call);
        if r.Asserted? {
          return;
        }
        items := items + [DataOf(r)];
        i := i + 1;
      }
      return Built(Items(items), ptr);
    }
  }
}
