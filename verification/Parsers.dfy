/** The emitted parsers: one that only checks and skips, one that builds the value and
    asserts what the first has checked (generator/generate.c). */
module Parsers {
  import opened Bytes
  import opened Codec
  import opened Schema
  import opened Wrappers

  // How a skipping parser ends, and where it leaves the cursor.
  datatype Skipped = Skipped(ok: bool, pos: nat)

  function Remaining(data: seq<byte>, pos: nat): nat
    requires pos <= |data|
  {
    |data| - pos
  }

  function WordAt(data: seq<byte>, pos: nat): int
    requires pos + 4 <= |data|
  {
    UnSigned(data[pos..pos + 4])
  }

  function MagicAt(data: seq<byte>, pos: nat): int
    requires pos + 4 <= |data|
  {
    UnLe(data[pos..pos + 4])
  }

  // The constructor that carries the magic.
  function Find(cs: seq<Ctor>, magic: int): Option<Ctor> {
    if cs == [] then None else if cs[0].magic == magic then Some(cs[0]) else Find(cs[1..], magic)
  }

  lemma {:induction false} FindIn(cs: seq<Ctor>, magic: int)
    ensures Find(cs, magic).Some? ==> Find(cs, magic).value in cs
  {
    if cs != [] && cs[0].magic != magic {
      FindIn(cs[1..], magic);
    }
  }

  // ---- Base types ----

  predicate IsBase(k: BaseKind) { k in {IntKind, LongKind, DoubleKind, StringKind} }

  function SkipBase(k: BaseKind, data: seq<byte>, pos: nat): (r: Skipped)
    requires pos <= |data| && IsBase(k)
    ensures pos <= r.pos <= |data|
  {
    if k == StringKind then
      var l := PrefetchStrlen(data[pos..]);
      if l < 0 then Skipped(false, pos) else StrInBounds(data[pos..]); Skipped(true, pos + StrSpan(l))
    else
      var size := if k == IntKind then 4 else 8;
      if Remaining(data, pos) < size then Skipped(false, pos) else Skipped(true, pos + size)
  }

  // ---- Skipping ----

  // skip_type_x, skip_type_bare_x and skip_type_any
  function Skip(g: Schema, c: Call, data: seq<byte>, pos: nat): (r: Skipped)
    requires Acyclic(g) && pos <= |data|
    ensures pos <= r.pos <= |data|
    decreases |data| - pos, if c.bare then g.rank(c.param) + 1 else 0, 5, 0
  {
    if c.name !in g.types then Skipped(false, pos)
    else
      var cs := g.types[c.name];
      if c.bare then
        if |cs| == 1 then SkipCtor(g, c.name, cs[0], c.param, data, pos)
        else SkipTries(g, c.name, c.param, data, pos, 0)
      else if Remaining(data, pos) < 4 then Skipped(false, pos)
      else
        FindIn(cs, MagicAt(data, pos));
        match Find(cs, MagicAt(data, pos))
        case None => Skipped(false, pos + 4)
        case Some(k) => SkipCtor(g, c.name, k, c.param, data, pos + 4)
  }

  // One constructor after the other, each from the same place.
  function SkipTries(g: Schema, name: int, t: Param, data: seq<byte>, pos: nat, i: nat): (r: Skipped)
    requires Acyclic(g) && pos <= |data| && name in g.types && i <= |g.types[name]|
    ensures pos <= r.pos <= |data|
    decreases |data| - pos, g.rank(t) + 1, 4, |g.types[name]| - i
  {
    if i == |g.types[name]| then Skipped(false, pos)
    else
      var r := SkipCtor(g, name, g.types[name][i], t, data, pos);
      if r.ok then r else SkipTries(g, name, t, data, pos, i + 1)
  }

  // skip_constructor_x
  function SkipCtor(g: Schema, name: int, c: Ctor, t: Param, data: seq<byte>, pos: nat): (r: Skipped)
    requires Acyclic(g) && pos <= |data| && name in g.types && c in g.types[name]
    ensures pos <= r.pos <= |data|
    decreases |data| - pos, g.rank(t) + 1, 3, 0
  {
    if c.excl then Skipped(false, pos)
    else
      var m := Match(c.result, t, map[], true);
      if m.None? then Skipped(false, pos)
      else if IsBase(c.kind) then SkipBase(c.kind, data, pos)
      else SkipFields(g, name, c, t, c.fields, m.value, data, pos)
  }

  function SkipFields(g: Schema, name: int, c: Ctor, t: Param, fs: seq<Field>, env: Env, data: seq<byte>, pos: nat): (r: Skipped)
    requires Acyclic(g) && pos <= |data| && name in g.types && c in g.types[name]
    requires Binds(c, t, env) && forall f | f in fs :: f in c.fields
    ensures pos <= r.pos <= |data|
    decreases |data| - pos, g.rank(t) + 1, 2, |fs|
  {
    if fs == [] then Skipped(true, pos)
    else
      assert fs[0] in fs;
      var f := fs[0];
      if !Present(f, env) then SkipFields(g, name, c, t, fs[1..], env, data, pos)
      else if f.NumField? then
        if Remaining(data, pos) < 4 then Skipped(false, pos)
        else SkipFields(g, name, c, t, fs[1..], Bind(env, f.v, WordAt(data, pos)), data, pos + 4)
      else
        var r := SkipField(g, name, c, t, f, env, data, pos);
        if !r.ok then r else SkipFields(g, name, c, t, fs[1..], env, data, r.pos)
  }

  function SkipField(g: Schema, name: int, c: Ctor, t: Param, f: Field, env: Env, data: seq<byte>, pos: nat): (r: Skipped)
    requires Acyclic(g) && pos <= |data| && name in g.types && c in g.types[name]
    requires Binds(c, t, env) && f in c.fields && !f.NumField?
    ensures pos <= r.pos <= |data|
    decreases |data| - pos, g.rank(t) + 1, 1, 0
  {
    assert Descends(g, c, t, env);
    if f.TypeField? then Skip(g, FieldCall(f, env), data, pos)
    else
      var n := Create(f.multiplicity, env);
      SkipItems(g, t, AnyCall(Create(f.element, env)), if n.Nat? && n.n > 0 then n.n else 0, data, pos)
  }

  function SkipItems(g: Schema, t: Param, call: Call, count: nat, data: seq<byte>, pos: nat): (r: Skipped)
    requires Acyclic(g) && pos <= |data| && (call.bare ==> g.rank(call.param) < g.rank(t))
    ensures pos <= r.pos <= |data|
    decreases |data| - pos, g.rank(t) + 1, 0, count
  {
    if count == 0 then Skipped(true, pos)
    else
      var r := Skip(g, call, data, pos);
      if !r.ok then r else SkipItems(g, t, call, count - 1, data, r.pos)
  }

  // ---- Building ----

  // What is built. Absent is a field that is not there, or a null pointer.
  datatype Data = Absent | Number(n: int) | Text(s: seq<byte>) | Record(magic: int, fields: seq<Data>) | Items(items: seq<Data>)

  // How a building parser ends; Asserted where an assertion fails.
  datatype Outcome = Asserted | Null(pos: nat) | Built(data: Data, pos: nat)

  predicate Within(r: Outcome, pos: nat, data: seq<byte>) { r.Asserted? || pos <= r.pos <= |data| }

  function DataOf(r: Outcome): Data { if r.Built? then r.data else Absent }

  function FetchBase(k: BaseKind, data: seq<byte>, pos: nat): (r: Outcome)
    requires pos <= |data| && (IsBase(k) || k == BytesKind)
    ensures Within(r, pos, data)
  {
    if k == StringKind || k == BytesKind then
      if Remaining(data, pos) < 4 then Asserted
      else
        var l := PrefetchStrlen(data[pos..]);
        if l < 0 then Asserted
        else
          StrInBounds(data[pos..]);
          Built(Text(data[pos..][StrStart(l)..StrStart(l) + l]), pos + StrSpan(l))
    else
      var size := if k == IntKind then 4 else 8;
      if Remaining(data, pos) < size then Asserted else Built(Number(UnSigned(data[pos..pos + size])), pos + size)
  }

  // fetch_ds_type_x, fetch_ds_type_bare_x and fetch_ds_type_any
  function Fetch(g: Schema, c: Call, data: seq<byte>, pos: nat): (r: Outcome)
    requires Acyclic(g) && pos <= |data|
    ensures Within(r, pos, data)
    decreases |data| - pos, if c.bare then g.rank(c.param) + 1 else 0, 5, 0
  {
    if c.name !in g.types then Null(pos)
    else
      var cs := g.types[c.name];
      if c.bare then
        if |cs| == 1 then FetchCtor(g, c.name, cs[0], c.param, data, pos)
        else FetchTries(g, c.name, c.param, data, pos, pos, 0)
      else if Remaining(data, pos) < 4 then Asserted
      else
        FindIn(cs, MagicAt(data, pos));
        match Find(cs, MagicAt(data, pos))
        case None => Asserted
        case Some(k) => FetchCtor(g, c.name, k, c.param, data, pos + 4)
  }

  // The skipping parsers are tried in turn, but after one that fails the cursor stays
  // where that one has left it.
  function FetchTries(g: Schema, name: int, t: Param, data: seq<byte>, start: nat, pos: nat, i: nat): (r: Outcome)
    requires Acyclic(g) && start <= pos <= |data| && name in g.types && i <= |g.types[name]|
    ensures Within(r, start, data)
    decreases |data| - start, g.rank(t) + 1, 4, |g.types[name]| - i
  {
    if i == |g.types[name]| then Asserted
    else
      var r := SkipCtor(g, name, g.types[name][i], t, data, pos);
      if r.ok then FetchCtor(g, name, g.types[name][i], t, data, start)
      else FetchTries(g, name, t, data, start, r.pos, i + 1)
  }

  // fetch_ds_constructor_x
  function FetchCtor(g: Schema, name: int, c: Ctor, t: Param, data: seq<byte>, pos: nat): (r: Outcome)
    requires Acyclic(g) && pos <= |data| && name in g.types && c in g.types[name]
    ensures Within(r, pos, data)
    decreases |data| - pos, g.rank(t) + 1, 3, 0
  {
    if c.excl then Asserted
    else
      var m := Match(c.result, t, map[], true);
      if m.None? then Null(pos)
      else if IsBase(c.kind) || c.kind == BytesKind then FetchBase(c.kind, data, pos)
      else
        var magic := if |g.types[name]| > 1 then c.magic else 0;
        FetchFields(g, name, c, t, c.fields, m.value, data, pos, magic, [])
  }

  function FetchFields(g: Schema, name: int, c: Ctor, t: Param, fs: seq<Field>, env: Env, data: seq<byte>, pos: nat,
                       magic: int, done: seq<Data>): (r: Outcome)
    requires Acyclic(g) && pos <= |data| && name in g.types && c in g.types[name]
    requires Binds(c, t, env) && forall f | f in fs :: f in c.fields
    ensures Within(r, pos, data)
    decreases |data| - pos, g.rank(t) + 1, 2, |fs|
  {
    if fs == [] then Built(Record(magic, done), pos)
    else
      assert fs[0] in fs;
      var f := fs[0];
      if !Present(f, env) then FetchFields(g, name, c, t, fs[1..], env, data, pos, magic, done + [Absent])
      else if f.NumField? then
        if Remaining(data, pos) < 4 then Asserted
        else
          var n := WordAt(data, pos);
          FetchFields(g, name, c, t, fs[1..], Bind(env, f.v, n), data, pos + 4, magic, done + [Number(n)])
      else
        var r := FetchField(g, name, c, t, f, env, data, pos);
        if r.Asserted? then r
        else FetchFields(g, name, c, t, fs[1..], env, data, r.pos, magic, done + [DataOf(r)])
  }

  function FetchField(g: Schema, name: int, c: Ctor, t: Param, f: Field, env: Env, data: seq<byte>, pos: nat): (r: Outcome)
    requires Acyclic(g) && pos <= |data| && name in g.types && c in g.types[name]
    requires Binds(c, t, env) && f in c.fields && !f.NumField?
    ensures Within(r, pos, data)
    decreases |data| - pos, g.rank(t) + 1, 1, 0
  {
    assert Descends(g, c, t, env);
    if f.TypeField? then Fetch(g, FieldCall(f, env), data, pos)
    else
      var n := Create(f.multiplicity, env);
      FetchItems(g, t, AnyCall(Create(f.element, env)), if n.Nat? && n.n > 0 then n.n else 0, data, pos, [])
  }

  function FetchItems(g: Schema, t: Param, call: Call, count: nat, data: seq<byte>, pos: nat, done: seq<Data>): (r: Outcome)
    requires Acyclic(g) && pos <= |data| && (call.bare ==> g.rank(call.param) < g.rank(t))
    ensures Within(r, pos, data)
    decreases |data| - pos, g.rank(t) + 1, 0, count
  {
    if count == 0 then Built(Items(done), pos)
    else
      var r := Fetch(g, call, data, pos);
      if r.Asserted? then r else FetchItems(g, t, call, count - 1, data, r.pos, done + [DataOf(r)])
  }
}
