/** Values of TL types as bytes, and what the emitted parsers make of these bytes
    (generator/generate.c). The writer says on its own which fields are there, in which
    order they stand and how many elements an array has. */
module Writer {
  import opened Agreement
  import opened Bytes
  import opened Converse
  import Codec
  import ModArith
  import opened Parsers
  import opened Schema
  import opened Wrappers

  // ---- The writer ----

  // The bit of that value is set in n: n is an odd multiple of the value and less than
  // one more of it.
  ghost predicate BitSet(n: int, bit: nat) { exists q: int, r: int :: OddMultiple(n, ModArith.Pow(2, bit), q, r) }

  predicate OddMultiple(n: int, p: nat, q: int, r: int) { n == (2 * q + 1) * p + r && 0 <= r < p }

  // A field with a condition is there exactly if the number written for v has the bit.
  ghost predicate Emitted(f: Field, env: Env) {
    f.exist.Some? ==>
      var x := f.exist.value;
      x.v in env && env[x.v].Nat? && BitSet(env[x.v].n, x.bit)
  }

  // The parser that an expression in a field names.
  function Named(e: Expr, bare: bool, env: Env): Option<Call> {
    match e
    case TypeExpr(name, b, _) => Some(Call(name, bare || b, Create(e, env)))
    case VarType(i) => if i in env && env[i].Type? then Some(Call(env[i].name, env[i].bare, env[i])) else None
    case _ => None
  }

  // How many elements an array has; a negative number counts as none.
  function Count(e: Expr, env: Env): Option<nat> {
    match e
    case NatConst(n) => Some(if n < 0 then 0 else n)
    case VarNum(w, dif) =>
      if w !in env || env[w].Type? then None else Some(if env[w].n + dif < 0 then 0 else env[w].n + dif)
    case _ => None
  }

  // The one constructor of a type, or the only one that carries the magic of a record.
  // A value of a base type does not tell its constructor, so its type must have one only.
  ghost function Chosen(cs: seq<Ctor>, v: Data): (r: Option<nat>)
    ensures r.Some? ==> r.value < |cs|
  {
    if |cs| == 1 then Some(0)
    else if v.Record? && exists i: nat :: Carries(cs, i, v.magic) then
      var i: nat :| Carries(cs, i, v.magic);
      Some(i)
    else None
  }

  ghost predicate Carries(cs: seq<Ctor>, i: nat, magic: int) {
    i < |cs| && cs[i].magic == magic && forall j | 0 <= j < |cs| && j != i :: cs[j].magic != magic
  }

  function Cat(s: Option<seq<byte>>, t: Option<seq<byte>>): Option<seq<byte>> {
    if s.None? || t.None? then None else Some(s.value + t.value)
  }

  // The bytes of a value of a type; None if it is no value of that type.
  ghost function Write(g: Schema, c: Call, v: Data): Option<seq<byte>>
    decreases v, 2
  {
    if c.name !in g.types || Chosen(g.types[c.name], v).None? then None
    else
      var k := g.types[c.name][Chosen(g.types[c.name], v).value];
      var body := WriteCtor(g, c.name, k, c.param, v);
      if c.bare then body
      else if 0 <= k.magic < 0x1_0000_0000 then Cat(Some(Codec.Le(k.magic, 4)), body) else None
  }

  ghost function WriteCtor(g: Schema, name: int, k: Ctor, t: Param, v: Data): Option<seq<byte>>
    requires name in g.types
    decreases v, 1
  {
    var m := Match(k.result, t, map[], true);
    if k.excl || m.None? then None
    else match k.kind
      case General =>
        if v.Record? && v.magic == (if |g.types[name]| > 1 then k.magic else 0)
        then WriteFields(g, k.fields, m.value, v.fields) else None
      case _ => WriteBase(k.kind, v)
  }

  function WriteBase(k: BaseKind, v: Data): Option<seq<byte>>
    requires k != General
  {
    if k == StringKind || k == BytesKind then
      if v.Text? && |v.s| < Codec.TOO_LONG then Some(Codec.OutStr(v.s)) else None
    else
      var size := if k == IntKind then 4 else 8;
      if v.Number? && Codec.Fits(v.n, size) then Some(Codec.Signed(v.n, size)) else None
  }

  // The fields one after the other; one that is not there leaves no trace.
  ghost function WriteFields(g: Schema, fs: seq<Field>, env: Env, vs: seq<Data>): Option<seq<byte>>
    decreases vs
  {
    if |fs| != |vs| then None
    else if fs == [] then Some([])
    else
      var f := fs[0];
      if !Emitted(f, env) then if vs[0] == Absent then WriteFields(g, fs[1..], env, vs[1..]) else None
      else if f.NumField? then
        if !vs[0].Number? then None
        else Cat(WriteBase(IntKind, vs[0]), WriteFields(g, fs[1..], Reading(env, f.v, vs[0].n), vs[1..]))
      else Cat(WriteField(g, f, env, vs[0]), WriteFields(g, fs[1..], env, vs[1..]))
  }

  // What the fields behind a number know.
  function Reading(env: Env, v: nat, n: int): Env { if v in env then env else env[v := Nat(n)] }

  ghost function WriteField(g: Schema, f: Field, env: Env, v: Data): Option<seq<byte>>
    requires !f.NumField?
    decreases v, 3
  {
    match f
    case TypeField(_, e, bare) =>
      if Named(e, bare, env).None? then None else Write(g, Named(e, bare, env).value, v)
    case ArrayField(_, multiplicity, element) =>
      if !v.Items? || Count(multiplicity, env) != Some(|v.items|) || Named(element, false, env).None? then None
      else WriteItems(g, Named(element, false, env).value, v.items)
  }

  ghost function WriteItems(g: Schema, call: Call, vs: seq<Data>): Option<seq<byte>>
    decreases vs
  {
    if vs == [] then Some([]) else Cat(Write(g, call, vs[0]), WriteItems(g, call, vs[1..]))
  }

  // ---- Where the bytes are read as something else ----

  // A bare value does not carry its magic, so its constructor is found by trying. A value
  // is clear in a buffer if wherever it has a bare value of a type with several
  // constructors, none of those in front of the right one fits there.
  ghost predicate Clear(g: Schema, c: Call, v: Data, data: seq<byte>, pos: nat)
    requires Acyclic(g)
    decreases v, 2
  {
    && pos <= |data| && c.name in g.types && Chosen(g.types[c.name], v).Some?
    && var cs := g.types[c.name];
    var i := Chosen(cs, v).value;
    && (c.bare ==> forall j | 0 <= j < i :: !SkipCtor(g, c.name, cs[j], c.param, data, pos).ok)
    && ClearCtor(g, cs[i], c.param, v, data, if c.bare then pos else pos + 4)
  }

  ghost predicate ClearCtor(g: Schema, k: Ctor, t: Param, v: Data, data: seq<byte>, pos: nat)
    requires Acyclic(g)
    decreases v, 1
  {
    var m := Match(k.result, t, map[], true);
    k.kind == General && m.Some? && v.Record? ==> ClearFields(g, k.fields, m.value, v.fields, data, pos)
  }

  ghost predicate ClearFields(g: Schema, fs: seq<Field>, env: Env, vs: seq<Data>, data: seq<byte>, pos: nat)
    requires Acyclic(g)
    decreases vs
  {
    |fs| == |vs| && fs != [] ==>
      var f := fs[0];
      if !Emitted(f, env) then ClearFields(g, fs[1..], env, vs[1..], data, pos)
      else if f.NumField? then
        vs[0].Number? ==> ClearFields(g, fs[1..], Reading(env, f.v, vs[0].n), vs[1..], data, pos + 4)
      else
        var w := WriteField(g, f, env, vs[0]);
        && ClearField(g, f, env, vs[0], data, pos)
        && (w.Some? ==> ClearFields(g, fs[1..], env, vs[1..], data, pos + |w.value|))
  }

  ghost predicate ClearField(g: Schema, f: Field, env: Env, v: Data, data: seq<byte>, pos: nat)
    requires Acyclic(g) && !f.NumField?
    decreases v, 3
  {
    match f
    case TypeField(_, e, bare) =>
      Named(e, bare, env).Some? ==> Clear(g, Named(e, bare, env).value, v, data, pos)
    case ArrayField(_, _, element) =>
      v.Items? && Named(element, false, env).Some? ==> ClearItems(g, Named(element, false, env).value, v.items, data, pos)
  }

  ghost predicate ClearItems(g: Schema, call: Call, vs: seq<Data>, data: seq<byte>, pos: nat)
    requires Acyclic(g)
    decreases vs
  {
    vs != [] ==>
      var w := Write(g, call, vs[0]);
      && Clear(g, call, vs[0], data, pos)
      && (w.Some? ==> ClearItems(g, call, vs[1..], data, pos + |w.value|))
  }

  // ---- The parsers on what was written ----

  predicate StandsAt(w: seq<byte>, data: seq<byte>, pos: nat) { pos + |w| <= |data| && data[pos..pos + |w|] == w }

  lemma StandsSplit(s: seq<byte>, t: seq<byte>, data: seq<byte>, pos: nat)
    requires StandsAt(s + t, data, pos)
    ensures StandsAt(s, data, pos) && StandsAt(t, data, pos + |s|)
  {
    assert data[pos..pos + |s|] == data[pos..pos + |s + t|][..|s|];
    assert data[pos + |s|..pos + |s| + |t|] == data[pos..pos + |s + t|][|s|..];
  }

  // The building parser returns this value if and only if the bytes are clear, and then
  // it stops behind them.
  predicate Returns(b: Outcome, v: Data, end: nat, clear: bool) {
    (b.Built? && b.data == v <==> clear) && (clear ==> b.pos == end)
  }

  lemma {:induction false} BitIsSet(n: int, bit: nat)
    ensures (n / Pow2(bit)) % 2 == 1 <==> BitSet(n, bit)
  {
    var p := Pow2(bit);
    PowersOfTwo(bit);
    if (n / p) % 2 == 1 {
      var q := n / p / 2;
      HalfOf(n / p);
      assert n == p * (n / p) + n % p;
      OddSplit(n, p, q, n / p, n % p);
      assert OddMultiple(n, ModArith.Pow(2, bit), q, n % p);
    }
    if BitSet(n, bit) {
      var q: int, r: int :| OddMultiple(n, ModArith.Pow(2, bit), q, r);
      ModArith.DivModUnique(n, p, 2 * q + 1, r);
      assert (2 * q + 1) % 2 == 1;
    }
  }

  lemma {:induction false} PowersOfTwo(bit: nat)
    ensures Pow2(bit) == ModArith.Pow(2, bit)
  {
    if bit > 0 {
      PowersOfTwo(bit - 1);
    }
  }

  lemma HalfOf(x: int)
    requires x % 2 == 1
    ensures x == 2 * (x / 2) + 1
  {
  }

  lemma OddSplit(n: int, p: int, q: int, x: int, r: int)
    requires n == p * x + r && x == 2 * q + 1
    ensures n == (2 * q + 1) * p + r
  {
  }

  // Fields are there for the parser where the writer puts them.
  lemma {:induction false} PresentIsEmitted(f: Field, env: Env)
    ensures Present(f, env) <==> Emitted(f, env)
  {
    if f.exist.Some? {
      var x := f.exist.value;
      BitIsSet(NumberOf(env, x.v), x.bit);
      ZeroHasNoBit(x.bit);
    }
  }

  lemma ZeroHasNoBit(bit: nat)
    ensures (0 / Pow2(bit)) % 2 == 0
  {
    ModArith.DivModUnique(0, Pow2(bit), 0, 0);
  }

  lemma {:induction false} NumberReads(n: int, size: nat, data: seq<byte>, pos: nat)
    requires Codec.Fits(n, size) && StandsAt(Codec.Signed(n, size), data, pos)
    ensures |Codec.Signed(n, size)| == size && pos + size <= |data| && Codec.UnSigned(data[pos..pos + size]) == n
  {
    Codec.SignedRoundTrip(n, size);
  }

  lemma {:induction false} BaseReads(k: BaseKind, v: Data, data: seq<byte>, pos: nat)
    requires k != General && WriteBase(k, v).Some? && StandsAt(WriteBase(k, v).value, data, pos)
    ensures FetchBase(k, data, pos) == Built(v, pos + |WriteBase(k, v).value|)
  {
    if k == StringKind || k == BytesKind {
      TextReads(v.s, data, pos);
    } else {
      NumberReads(v.n, if k == IntKind then 4 else 8, data, pos);
    }
  }

  lemma {:induction false} TextReads(s: seq<byte>, data: seq<byte>, pos: nat)
    requires |s| < Codec.TOO_LONG && StandsAt(Codec.OutStr(s), data, pos)
    ensures FetchBase(StringKind, data, pos) == FetchBase(BytesKind, data, pos) == Built(Text(s), pos + |Codec.OutStr(s)|)
  {
    var w, rest := Codec.OutStr(s), data[pos + |Codec.OutStr(s)|..];
    assert data[pos..] == w + rest;
    Codec.StrFound(s, rest);
    Codec.OutStrSpan(s);
    var (a, b) := (Codec.StrStart(|s|), Codec.StrStart(|s|) + |s|);
    hide Codec.OutStr, Codec.PrefetchStrlen;
    Codec.StrInBounds(data[pos..]);
    assert data[pos..][a..b] == w[a..b];
  }

  lemma {:induction false} FindCarrier(cs: seq<Ctor>, i: nat, magic: int)
    requires Carries(cs, i, magic)
    ensures Find(cs, magic) == Some(cs[i])
  {
    if i > 0 {
      FindCarrier(cs[1..], i - 1, magic);
    }
  }

  // The magic in front of a boxed value leads to its constructor.
  lemma {:induction false} MagicReads(cs: seq<Ctor>, v: Data, data: seq<byte>, pos: nat)
    requires Chosen(cs, v).Some? && 0 <= cs[Chosen(cs, v).value].magic < 0x1_0000_0000
    requires v.Record? && |cs| > 1 ==> v.magic == cs[Chosen(cs, v).value].magic
    requires StandsAt(Codec.Le(cs[Chosen(cs, v).value].magic, 4), data, pos)
    ensures pos + 4 <= |data| && Find(cs, MagicAt(data, pos)) == Some(cs[Chosen(cs, v).value])
    ensures |Codec.Le(cs[Chosen(cs, v).value].magic, 4)| == 4
  {
    var i := Chosen(cs, v).value;
    Codec.LeLength(cs[i].magic, 4);
    assert ModArith.Pow(0x100, 4) == 0x1_0000_0000 by { assert Codec.PowPos(4) == 0x1_0000_0000; }
    Codec.LeRoundTrip(cs[i].magic, 4);
    assert Carries(cs, i, cs[i].magic);
    FindCarrier(cs, i, cs[i].magic);
  }

  // ---- What is built keeps what was built before ----

  lemma {:induction false} FieldsKeepDone(g: Schema, name: int, c: Ctor, t: Param, fs: seq<Field>, env: Env, data: seq<byte>, pos: nat,
                                          magic: int, done: seq<Data>)
    requires Acyclic(g) && pos <= |data| && name in g.types && c in g.types[name]
    requires Binds(c, t, env) && forall f | f in fs :: f in c.fields
    ensures var b := FetchFields(g, name, c, t, fs, env, data, pos, magic, done);
            b.Built? ==> b.data.Record? && b.data.magic == magic && done <= b.data.fields
    decreases |fs|
  {
    if fs != [] {
      assert fs[0] in fs;
      var f := fs[0];
      if !Present(f, env) {
        FieldsKeepDone(g, name, c, t, fs[1..], env, data, pos, magic, done + [Absent]);
      } else if f.NumField? {
        if Remaining(data, pos) >= 4 {
          var n := WordAt(data, pos);
          FieldsKeepDone(g, name, c, t, fs[1..], Bind(env, f.v, n), data, pos + 4, magic, done + [Number(n)]);
        }
      } else {
        var r := FetchField(g, name, c, t, f, env, data, pos);
        if !r.Asserted? {
          FieldsKeepDone(g, name, c, t, fs[1..], env, data, r.pos, magic, done + [DataOf(r)]);
        }
      }
    }
  }

  lemma {:induction false} ItemsKeepDone(g: Schema, t: Param, call: Call, count: nat, data: seq<byte>, pos: nat, done: seq<Data>)
    requires Acyclic(g) && pos <= |data| && (call.bare ==> g.rank(call.param) < g.rank(t))
    ensures var b := FetchItems(g, t, call, count, data, pos, done);
            b.Built? ==> b.data.Items? && done <= b.data.items
    decreases count
  {
    if count > 0 {
      var r := Fetch(g, call, data, pos);
      if !r.Asserted? {
        ItemsKeepDone(g, t, call, count - 1, data, r.pos, done + [DataOf(r)]);
      }
    }
  }

  // A record tells which constructor has built it.
  lemma {:induction false} RecordTells(g: Schema, name: int, c: Ctor, t: Param, data: seq<byte>, pos: nat)
    requires Acyclic(g) && pos <= |data| && name in g.types && c in g.types[name] && |g.types[name]| > 1
    ensures var b := FetchCtor(g, name, c, t, data, pos); b.Built? && b.data.Record? ==> b.data.magic == c.magic
  {
    var m := Match(c.result, t, map[], true);
    if !c.excl && m.Some? && !IsBase(c.kind) && c.kind != BytesKind {
      FieldsKeepDone(g, name, c, t, c.fields, m.value, data, pos, c.magic, []);
    }
  }

  // ---- Reading back ----

  // Trying the constructors in turn, when the first that fits is the i-th.
  lemma {:induction false} TriesReach(g: Schema, name: int, t: Param, data: seq<byte>, pos: nat, j: nat, i: nat)
    requires GoodSchema(g) && pos <= |data| && name in g.types && j <= i < |g.types[name]|
    requires Tame(g, name) && |g.types[name]| > 1 && SkipCtor(g, name, g.types[name][i], t, data, pos).ok
    requires forall l | j <= l < i :: !SkipCtor(g, name, g.types[name][l], t, data, pos).ok
    ensures FetchTries(g, name, t, data, pos, pos, j) == FetchCtor(g, name, g.types[name][i], t, data, pos)
    decreases i - j
  {
    if j < i {
      FailsInPlace(g, name, g.types[name][j], t, data, pos);
      TriesReach(g, name, t, data, pos, j + 1, i);
    }
  }

  // Whatever the tries build, the first constructor that fits has built it.
  lemma {:induction false} TriesBuild(g: Schema, name: int, t: Param, data: seq<byte>, pos: nat, j: nat) returns (i: nat)
    requires GoodSchema(g) && pos <= |data| && name in g.types && j <= |g.types[name]|
    requires Tame(g, name) && |g.types[name]| > 1 && FetchTries(g, name, t, data, pos, pos, j).Built?
    ensures j <= i < |g.types[name]|
    ensures forall l | j <= l < i :: !SkipCtor(g, name, g.types[name][l], t, data, pos).ok
    ensures FetchTries(g, name, t, data, pos, pos, j) == FetchCtor(g, name, g.types[name][i], t, data, pos)
    decreases |g.types[name]| - j
  {
    i := j;
    if !SkipCtor(g, name, g.types[name][j], t, data, pos).ok {
      if j < |g.types[name]| - 1 {
        FailsInPlace(g, name, g.types[name][j], t, data, pos);
      }
      i := TriesBuild(g, name, t, data, pos, j + 1);
    }
  }

  lemma {:induction false} BareReads(g: Schema, c: Call, v: Data, data: seq<byte>, pos: nat, end: nat, clear: bool)
    requires FitSchema(g) && pos <= |data| && c.name in g.types && Tame(g, c.name) && |g.types[c.name]| > 1
    requires Chosen(g.types[c.name], v).Some? && BindsFit(g, g.types[c.name][Chosen(g.types[c.name], v).value], c.param)
    requires Returns(FetchCtor(g, c.name, g.types[c.name][Chosen(g.types[c.name], v).value], c.param, data, pos), v, end, clear)
    ensures var (cs, i) := (g.types[c.name], Chosen(g.types[c.name], v).value);
            var first := forall j | 0 <= j < i :: !SkipCtor(g, c.name, cs[j], c.param, data, pos).ok;
            Returns(FetchTries(g, c.name, c.param, data, pos, pos, 0), v, end, first && clear)
  {
    var (cs, i) := (g.types[c.name], Chosen(g.types[c.name], v).value);
    CtorBack(g, c.name, cs[i], c.param, data, pos);
    var first := forall j | 0 <= j < i :: !SkipCtor(g, c.name, cs[j], c.param, data, pos).ok;
    hide SkipCtor, FetchCtor, FitSchema, BindsFit;
    if first && clear {
      TriesReach(g, c.name, c.param, data, pos, 0, i);
    }
    var b := FetchTries(g, c.name, c.param, data, pos, pos, 0);
    if b.Built? && b.data == v {
      var l := TriesBuild(g, c.name, c.param, data, pos, 0);
      RecordTells(g, c.name, cs[l], c.param, data, pos);
      assert l == i;
    }
  }

  // What the writer has written is read as that value if and only if it is clear there.
  lemma {:induction false} ReadsBack(g: Schema, c: Call, v: Data, data: seq<byte>, pos: nat)
    requires FitSchema(g) && CallOk(g, c) && CallFits(g, c) && pos <= |data|
    requires Write(g, c, v).Some? && StandsAt(Write(g, c, v).value, data, pos)
    ensures Returns(Fetch(g, c, data, pos), v, pos + |Write(g, c, v).value|, Clear(g, c, v, data, pos))
    decreases v, 2
  {
    var (cs, t) := (g.types[c.name], c.param);
    var i := Chosen(cs, v).value;
    MatchOk(g, cs[i].result, t, map[], true);
    MatchFits(g, cs[i].result, t, map[], true);
    if !c.bare {
      StandsSplit(Codec.Le(cs[i].magic, 4), WriteCtor(g, c.name, cs[i], t, v).value, data, pos);
      MagicReads(cs, v, data, pos);
      CtorReads(g, c.name, cs[i], t, v, data, pos + 4);
    } else {
      CtorReads(g, c.name, cs[i], t, v, data, pos);
      if |cs| > 1 {
        BareReads(g, c, v, data, pos, pos + |Write(g, c, v).value|, ClearCtor(g, cs[i], t, v, data, pos));
      }
    }
  }

  lemma {:induction false} CtorReads(g: Schema, name: int, k: Ctor, t: Param, v: Data, data: seq<byte>, pos: nat)
    requires FitSchema(g) && pos <= |data| && name in g.types && k in g.types[name] && BindsFit(g, k, t)
    requires WriteCtor(g, name, k, t, v).Some? && StandsAt(WriteCtor(g, name, k, t, v).value, data, pos)
    ensures Returns(FetchCtor(g, name, k, t, data, pos), v, pos + |WriteCtor(g, name, k, t, v).value|, ClearCtor(g, k, t, v, data, pos))
    decreases v, 1
  {
    var m := Match(k.result, t, map[], true);
    if k.kind == General {
      FieldsRead(g, name, k, t, k.fields, m.value, v.fields, data, pos, v.magic, []);
      assert [] + v.fields == v.fields;
    } else {
      BaseReads(k.kind, v, data, pos);
    }
  }

  lemma {:induction false} FieldsRead(g: Schema, name: int, c: Ctor, t: Param, fs: seq<Field>, env: Env, vs: seq<Data>,
                                      data: seq<byte>, pos: nat, magic: int, done: seq<Data>)
    requires FitSchema(g) && pos <= |data| && name in g.types && c in g.types[name]
    requires Binds(c, t, env) && EnvOk(g, env) && EnvFits(g, env) && forall f | f in fs :: f in c.fields
    requires WriteFields(g, fs, env, vs).Some? && StandsAt(WriteFields(g, fs, env, vs).value, data, pos)
    ensures Returns(FetchFields(g, name, c, t, fs, env, data, pos, magic, done), Record(magic, done + vs),
                    pos + |WriteFields(g, fs, env, vs).value|, ClearFields(g, fs, env, vs, data, pos))
    decreases vs, 1
  {
    if fs == [] {
      assert done + vs == done;
    } else {
      var f := fs[0];
      assert f in fs && (done + [vs[0]]) + vs[1..] == done + vs;
      PresentIsEmitted(f, env);
      hide Emitted, Present, Fits, TameBare, BytesOk, BaseIncluded;
      if !Emitted(f, env) {
        FieldsRead(g, name, c, t, fs[1..], env, vs[1..], data, pos, magic, done + [vs[0]]);
      } else if f.NumField? {
        var n := vs[0].n;
        var env' := Reading(env, f.v, n);
        StandsSplit(Codec.Signed(n, 4), WriteFields(g, fs[1..], env', vs[1..]).value, data, pos);
        NumberReads(n, 4, data, pos);
        FieldsRead(g, name, c, t, fs[1..], env', vs[1..], data, pos + 4, magic, done + [vs[0]]);
      } else {
        hide FitSchema, Codec.Signed, WriteBase;
        TypedRead(g, name, c, t, fs, env, vs, data, pos, magic, done);
      }
    }
  }

  // A field that is neither a number nor left out, and what stands behind it.
  lemma {:induction false} TypedRead(g: Schema, name: int, c: Ctor, t: Param, fs: seq<Field>, env: Env, vs: seq<Data>,
                                     data: seq<byte>, pos: nat, magic: int, done: seq<Data>)
    requires FitSchema(g) && pos <= |data| && name in g.types && c in g.types[name]
    requires Binds(c, t, env) && EnvOk(g, env) && EnvFits(g, env) && forall f | f in fs :: f in c.fields
    requires WriteFields(g, fs, env, vs).Some? && StandsAt(WriteFields(g, fs, env, vs).value, data, pos)
    requires fs != [] && Emitted(fs[0], env) && Present(fs[0], env) && !fs[0].NumField?
    ensures Returns(FetchFields(g, name, c, t, fs, env, data, pos, magic, done), Record(magic, done + vs),
                    pos + |WriteFields(g, fs, env, vs).value|, ClearFields(g, fs, env, vs, data, pos))
    decreases vs, 0
  {
    hide Emitted, Present, EnvOk, EnvFits, Binds;
    var f := fs[0];
    assert f in fs && (done + [vs[0]]) + vs[1..] == done + vs;
    var w := WriteField(g, f, env, vs[0]).value;
    StandsSplit(w, WriteFields(g, fs[1..], env, vs[1..]).value, data, pos);
    FieldReads(g, name, c, t, f, env, vs[0], data, pos);
    var r := FetchField(g, name, c, t, f, env, data, pos);
    hide WriteField, FetchField, ClearField;
    if ClearField(g, f, env, vs[0], data, pos) {
      FieldsRead(g, name, c, t, fs[1..], env, vs[1..], data, pos + |w|, magic, done + [vs[0]]);
    } else if !r.Asserted? {
      FieldsKeepDone(g, name, c, t, fs[1..], env, data, r.pos, magic, done + [DataOf(r)]);
      NotDone(FetchFields(g, name, c, t, fs, env, data, pos, magic, done), done, DataOf(r), vs);
    }
  }

  lemma NotDone(b: Outcome, done: seq<Data>, x: Data, vs: seq<Data>)
    requires vs != [] && x != vs[0] && (b.Built? ==> b.data.Record? && done + [x] <= b.data.fields)
    ensures b.Built? ==> b.data.fields != done + vs
  {
    assert (done + [x])[|done|] == x && (done + vs)[|done|] == vs[0];
  }

  lemma {:induction false} FieldReads(g: Schema, name: int, c: Ctor, t: Param, f: Field, env: Env, v: Data, data: seq<byte>, pos: nat)
    requires FitSchema(g) && pos <= |data| && name in g.types && c in g.types[name]
    requires Binds(c, t, env) && EnvOk(g, env) && EnvFits(g, env) && f in c.fields && !f.NumField?
    requires WriteField(g, f, env, v).Some? && StandsAt(WriteField(g, f, env, v).value, data, pos)
    ensures v != Absent
    ensures Returns(FetchField(g, name, c, t, f, env, data, pos), v, pos + |WriteField(g, f, env, v).value|,
                    ClearField(g, f, env, v, data, pos))
    decreases v, 3
  {
    hide Write, WriteItems, Clear, ClearItems, Fetch, FetchItems, FetchField, FitSchema, EnvOk, EnvFits, Binds, Returns, StandsAt;
    if f.TypeField? {
      var call := Named(f.e, f.bare, env).value;
      TypeFieldIs(g, name, c, t, f, env, v, data, pos);
      ReadsBack(g, call, v, data, pos);
      NeverAbsent(g, call, v);
    } else {
      var call := Named(f.element, false, env).value;
      ArrayFieldIs(g, name, c, t, f, env, v, data, pos);
      assert [] + v.items == v.items;
      ItemsRead(g, t, call, v.items, data, pos, []);
    }
  }

  lemma {:induction false} TypeFieldIs(g: Schema, name: int, c: Ctor, t: Param, f: Field, env: Env, v: Data, data: seq<byte>, pos: nat)
    requires FitSchema(g) && pos <= |data| && name in g.types && c in g.types[name] && Binds(c, t, env)
    requires EnvOk(g, env) && EnvFits(g, env) && f in c.fields && f.TypeField? && Named(f.e, f.bare, env).Some?
    ensures var call := Named(f.e, f.bare, env).value;
            && CallOk(g, call) && CallFits(g, call)
            && WriteField(g, f, env, v) == Write(g, call, v)
            && ClearField(g, f, env, v, data, pos) == Clear(g, call, v, data, pos)
            && FetchField(g, name, c, t, f, env, data, pos) == Fetch(g, call, data, pos)
  {
    FieldFacts(g, name, c, t, f, env);
    FieldCallOk(g, f, env);
    NamedIsCalled(f.e, f.bare, env);
    hide Write, Clear, Fetch, FitSchema, Named, Create;
  }

  lemma {:induction false} ArrayFieldIs(g: Schema, name: int, c: Ctor, t: Param, f: Field, env: Env, v: Data, data: seq<byte>, pos: nat)
    requires FitSchema(g) && pos <= |data| && name in g.types && c in g.types[name] && Binds(c, t, env)
    requires EnvOk(g, env) && EnvFits(g, env) && f in c.fields && f.ArrayField? && Named(f.element, false, env).Some?
    requires v.Items? && Count(f.multiplicity, env) == Some(|v.items|)
    ensures var call := Named(f.element, false, env).value;
            && CallOk(g, call) && CallFits(g, call) && (call.bare ==> g.rank(call.param) < g.rank(t))
            && WriteField(g, f, env, v) == WriteItems(g, call, v.items)
            && ClearField(g, f, env, v, data, pos) == ClearItems(g, call, v.items, data, pos)
            && FetchField(g, name, c, t, f, env, data, pos) == FetchItems(g, t, call, |v.items|, data, pos, [])
  {
    FieldFacts(g, name, c, t, f, env);
    ElementCallOk(g, f, env);
    NamedIsCalled(f.element, false, env);
    CountIsCreated(f.multiplicity, env);
    hide WriteItems, ClearItems, FetchItems, FitSchema, Named, Create, Count;
  }

  lemma NeverAbsent(g: Schema, c: Call, v: Data)
    requires Write(g, c, v).Some?
    ensures v != Absent
  {
  }

  lemma FieldFacts(g: Schema, name: int, c: Ctor, t: Param, f: Field, env: Env)
    requires FitSchema(g) && name in g.types && c in g.types[name]
    requires Binds(c, t, env) && EnvFits(g, env) && f in c.fields
    ensures FieldOk(g, f) && FieldFits(g, f, env) && FieldDescends(g, f, t, env)
  {
    assert Descends(g, c, t, env) && FieldsFit(g, c, env);
  }

  // The parser called for a field is the one it names.
  lemma NamedIsCalled(e: Expr, bare: bool, env: Env)
    requires Named(e, bare, env).Some?
    ensures FieldCall(TypeField(None, e, bare), env) == Named(e, bare, env).value
    ensures !bare ==> AnyCall(Create(e, env)) == Named(e, bare, env).value
  {
  }

  lemma CountIsCreated(e: Expr, env: Env)
    requires Count(e, env).Some?
    ensures var n := Create(e, env); n.Nat? && Count(e, env).value == if n.n > 0 then n.n else 0
  {
  }

  lemma {:induction false} ItemsRead(g: Schema, t: Param, call: Call, vs: seq<Data>, data: seq<byte>, pos: nat, done: seq<Data>)
    requires FitSchema(g) && pos <= |data| && (call.bare ==> g.rank(call.param) < g.rank(t))
    requires CallOk(g, call) && CallFits(g, call)
    requires WriteItems(g, call, vs).Some? && StandsAt(WriteItems(g, call, vs).value, data, pos)
    ensures Returns(FetchItems(g, t, call, |vs|, data, pos, done), Items(done + vs), pos + |WriteItems(g, call, vs).value|,
                    ClearItems(g, call, vs, data, pos))
    decreases vs
  {
    hide Write, Clear, Fetch, Skip, StandsAt, Fits, TameBare, BytesOk, BaseIncluded, Acyclic, CallOk, CallFits;
    if vs == [] {
      assert done + vs == done;
    } else {
      assert (done + [vs[0]]) + vs[1..] == done + vs;
      var w := Write(g, call, vs[0]).value;
      StandsSplit(w, WriteItems(g, call, vs[1..]).value, data, pos);
      ReadsBack(g, call, vs[0], data, pos);
      var r := Fetch(g, call, data, pos);
      if Clear(g, call, vs[0], data, pos) {
        ItemsRead(g, t, call, vs[1..], data, pos + |w|, done + [vs[0]]);
      } else if !r.Asserted? {
        FetchMeansSkip(g, call, data, pos);
        ItemsKeepDone(g, t, call, |vs| - 1, data, r.pos, done + [DataOf(r)]);
        var b := FetchItems(g, t, call, |vs|, data, pos, done);
        assert (done + [DataOf(r)])[|done|] == DataOf(r) && (done + vs)[|done|] == vs[0];
      }
    }
  }

  // The two parsers on a written value and whatever stands behind it: the skipping one
  // stops at its end and the building one returns exactly this value there, if and only
  // if the bytes are clear.
  lemma {:induction false} WrittenIsRead(g: Schema, c: Call, v: Data, rest: seq<byte>)
    requires FitSchema(g) && CallOk(g, c) && CallFits(g, c) && Write(g, c, v).Some?
    ensures var w := Write(g, c, v).value;
            && (Fetch(g, c, w + rest, 0) == Built(v, |w|) <==> Clear(g, c, v, w + rest, 0))
            && (Clear(g, c, v, w + rest, 0) ==> Skip(g, c, w + rest, 0) == Skipped(true, |w|))
  {
    var w := Write(g, c, v).value;
    ReadsBack(g, c, v, w + rest, 0);
    FetchMeansSkip(g, c, w + rest, 0);
  }

  // ---- Schemas in which every written value is clear ----

  // The same schema, with none of its types of several constructors tame. Under its
  // check only types with one constructor are used bare.
  function Harsh(g: Schema): Schema {
    Schema(map name | name in g.types :: if |g.types[name]| == 1 then g.types[name] else [Wild(), Wild()], g.rank)
  }

  function Wild(): Ctor { Ctor(0, General, false, NatConst(0), [NumField(None, 0), NumField(None, 1)]) }

  ghost predicate BareAlone(g: Schema) {
    forall name, c, f | name in g.types && c in g.types[name] && f in c.fields :: FieldOk(Harsh(g), f)
  }

  lemma TameIsAlone(g: Schema, name: int)
    requires Tame(Harsh(g), name) && name in g.types
    ensures |g.types[name]| == 1
  {
    assert Harsh(g).types[name] == if |g.types[name]| == 1 then g.types[name] else [Wild(), Wild()];
    assert [Wild(), Wild()][0] == Wild() && !StaysPut(Harsh(g), Wild());
  }

  lemma {:induction false} AlwaysClear(g: Schema, c: Call, v: Data, data: seq<byte>, pos: nat)
    requires Acyclic(g) && BareAlone(g) && CallOk(Harsh(g), c)
    requires Write(g, c, v).Some? && pos + |Write(g, c, v).value| <= |data|
    ensures Clear(g, c, v, data, pos)
    decreases v, 2
  {
    var cs := g.types[c.name];
    var k := cs[Chosen(cs, v).value];
    MatchOk(Harsh(g), k.result, c.param, map[], true);
    if c.bare {
      TameIsAlone(g, c.name);
      CtorClear(g, c.name, k, c.param, v, data, pos);
    } else {
      Codec.LeLength(k.magic, 4);
      CtorClear(g, c.name, k, c.param, v, data, pos + 4);
    }
  }

  lemma {:induction false} CtorClear(g: Schema, name: int, k: Ctor, t: Param, v: Data, data: seq<byte>, pos: nat)
    requires Acyclic(g) && BareAlone(g) && name in g.types && k in g.types[name] && BindsOk(Harsh(g), k, t)
    requires WriteCtor(g, name, k, t, v).Some? && pos + |WriteCtor(g, name, k, t, v).value| <= |data|
    ensures ClearCtor(g, k, t, v, data, pos)
    decreases v, 1
  {
    if k.kind == General {
      FieldsClear(g, k.fields, Match(k.result, t, map[], true).value, v.fields, data, pos);
    }
  }

  lemma {:induction false} FieldsClear(g: Schema, fs: seq<Field>, env: Env, vs: seq<Data>, data: seq<byte>, pos: nat)
    requires Acyclic(g) && BareAlone(g) && EnvOk(Harsh(g), env) && forall f | f in fs :: FieldOk(Harsh(g), f)
    requires WriteFields(g, fs, env, vs).Some? && pos + |WriteFields(g, fs, env, vs).value| <= |data|
    ensures ClearFields(g, fs, env, vs, data, pos)
    decreases vs
  {
    if fs != [] {
      var f := fs[0];
      assert f in fs;
      hide Emitted;
      if !Emitted(f, env) {
        FieldsClear(g, fs[1..], env, vs[1..], data, pos);
      } else if f.NumField? {
        Codec.SignedRoundTrip(vs[0].n, 4);
        FieldsClear(g, fs[1..], Reading(env, f.v, vs[0].n), vs[1..], data, pos + 4);
      } else {
        FieldClear(g, f, env, vs[0], data, pos);
        FieldsClear(g, fs[1..], env, vs[1..], data, pos + |WriteField(g, f, env, vs[0]).value|);
      }
    }
  }

  lemma {:induction false} FieldClear(g: Schema, f: Field, env: Env, v: Data, data: seq<byte>, pos: nat)
    requires Acyclic(g) && BareAlone(g) && EnvOk(Harsh(g), env) && !f.NumField? && FieldOk(Harsh(g), f)
    requires WriteField(g, f, env, v).Some? && pos + |WriteField(g, f, env, v).value| <= |data|
    ensures ClearField(g, f, env, v, data, pos)
    decreases v, 3
  {
    if f.TypeField? {
      FieldCallOk(Harsh(g), f, env);
      NamedIsCalled(f.e, f.bare, env);
      AlwaysClear(g, Named(f.e, f.bare, env).value, v, data, pos);
    } else {
      ElementCallOk(Harsh(g), f, env);
      NamedIsCalled(f.element, false, env);
      ItemsClear(g, Named(f.element, false, env).value, v.items, data, pos);
    }
  }

  lemma {:induction false} ItemsClear(g: Schema, call: Call, vs: seq<Data>, data: seq<byte>, pos: nat)
    requires Acyclic(g) && BareAlone(g) && CallOk(Harsh(g), call)
    requires WriteItems(g, call, vs).Some? && pos + |WriteItems(g, call, vs).value| <= |data|
    ensures ClearItems(g, call, vs, data, pos)
    decreases vs
  {
    if vs != [] {
      AlwaysClear(g, call, vs[0], data, pos);
      ItemsClear(g, call, vs[1..], data, pos + |Write(g, call, vs[0]).value|);
    }
  }

  // In such a schema there is no condition: every value that can be written is skipped
  // and built, whatever stands behind it.
  lemma {:induction false} WrittenIsAlwaysRead(g: Schema, c: Call, v: Data, rest: seq<byte>)
    requires FitSchema(g) && CallOk(g, c) && CallFits(g, c) && Write(g, c, v).Some?
    requires BareAlone(g) && CallOk(Harsh(g), c)
    ensures var w := Write(g, c, v).value;
            Skip(g, c, w + rest, 0) == Skipped(true, |w|) && Fetch(g, c, w + rest, 0) == Built(v, |w|)
  {
    hide Write, Fetch, Skip, Clear, BareAlone, CallOk, CallFits, Harsh, Fits, TameBare;
    WrittenIsRead(g, c, v, rest);
    AlwaysClear(g, c, v, Write(g, c, v).value + rest, 0);
  }

  // ---- Parameters ----

  // The pattern turned into the expression that gives back what it was matched with.
  function Undo(e: Expr): Expr {
    match e
    case VarNum(w, dif) => VarNum(w, -dif)
    case TypeExpr(name, _, args) => TypeExpr(name, false, seq(|args|, i requires 0 <= i < |args| => Undo(args[i])))
    case _ => e
  }

  // A pattern that matches a parameter binds its variables so that the parameter can be
  // created again, now and whatever else is bound later.
  lemma {:induction false} CreateUndoesMatch(e: Expr, v: Param, env: Env, more: Env)
    requires Match(e, v, env, false).Some? && Extends(Match(e, v, env, false).value, more)
    ensures Create(Undo(e), more) == v && Extends(env, more)
    decreases e
  {
    if e.TypeExpr? {
      EachUndone(e.args, v.params, env, more);
      var p := Create(Undo(e), more);
      assert p.params == v.params by {
        assert forall i | 0 <= i < |e.args| :: p.params[i] == Create(Undo(e.args[i]), more);
      }
    }
  }

  lemma {:induction false} EachUndone(es: seq<Expr>, vs: seq<Param>, env: Env, more: Env)
    requires |es| == |vs| && MatchAll(es, vs, env).Some? && Extends(MatchAll(es, vs, env).value, more)
    ensures Extends(env, more) && forall i | 0 <= i < |es| :: Create(Undo(es[i]), more) == vs[i]
    decreases es
  {
    if es != [] {
      var m := Match(es[0], vs[0], env, false).value;
      EachUndone(es[1..], vs[1..], m, more);
      CreateUndoesMatch(es[0], vs[0], env, more);
      forall i | 0 <= i < |es| ensures Create(Undo(es[i]), more) == vs[i] {
        if i > 0 { assert es[i] == es[1..][i - 1]; }
      }
    }
  }

  // ---- An example ----

  // int ? = Int; flagged flags:# x:flags.0?int = Flagged;
  function FlaggedSchema(): Schema {
    Schema(map[1 := [Ctor(1, IntKind, false, TypeExpr(1, false, []), [])],
               2 := [Ctor(2, General, false, TypeExpr(2, false, []), [NumField(None, 0), FlaggedField()])]],
           (p: Param) => if p.Type? && p.name == 2 then 1 else 0)
  }

  function FlaggedField(): Field { TypeField(Some(Exist(0, 0)), TypeExpr(1, true, []), true) }

  // The number x is written exactly behind odd flags.
  lemma {:induction false} FlagIsObeyed(n: int, x: int)
    requires Codec.Fits(n, 4) && Codec.Fits(x, 4)
    ensures var c := Call(2, true, Type(2, true, []));
            && Write(FlaggedSchema(), c, Record(0, [Number(n), Number(x)]))
               == (if n % 2 == 1 then Some(Codec.Signed(n, 4) + Codec.Signed(x, 4)) else None)
            && Write(FlaggedSchema(), c, Record(0, [Number(n), Absent]))
               == (if n % 2 == 0 then Some(Codec.Signed(n, 4)) else None)
  {
    var env := map[0 := Nat(n)];
    FlaggedFirst(n, Number(x));
    FlaggedFirst(n, Absent);
    FlaggedRest(env, Number(x));
    FlaggedRest(env, Absent);
    hide Codec.Signed, Codec.Fits, Write, WriteFields;
    BitIsSet(n, 0);
    assert n / Pow2(0) == n;
    assert Emitted(FlaggedField(), env) <==> n % 2 == 1;
    assert Codec.Signed(n, 4) + [] == Codec.Signed(n, 4);
  }

  lemma {:induction false} FlaggedFirst(n: int, v: Data)
    requires Codec.Fits(n, 4)
    ensures Write(FlaggedSchema(), Call(2, true, Type(2, true, [])), Record(0, [Number(n), v]))
            == Cat(Some(Codec.Signed(n, 4)), WriteFields(FlaggedSchema(), [FlaggedField()], map[0 := Nat(n)], [v]))
  {
    var g := FlaggedSchema();
    hide Codec.Signed, Codec.Fits;
    var k := g.types[2][0];
    var vs := [Number(n), v];
    assert Match(k.result, Type(2, true, []), map[], true) == Some(map[]);
    assert k.fields[1..] == [FlaggedField()] && vs[1..] == [v] && Reading(map[], 0, n) == map[0 := Nat(n)];
    assert Emitted(k.fields[0], map[]);
    assert WriteBase(IntKind, Number(n)) == Some(Codec.Signed(n, 4));
    assert WriteFields(g, k.fields, map[], vs)
        == Cat(Some(Codec.Signed(n, 4)), WriteFields(g, [FlaggedField()], map[0 := Nat(n)], [v]));
    assert WriteCtor(g, 2, k, Type(2, true, []), Record(0, vs)) == WriteFields(g, k.fields, map[], vs);
    assert Chosen(g.types[2], Record(0, vs)) == Some(0);
  }

  lemma FlaggedRest(env: Env, v: Data)
    requires v.Number? ==> Codec.Fits(v.n, 4)
    requires v.Number? || v.Absent?
    ensures WriteFields(FlaggedSchema(), [FlaggedField()], env, [v])
            == if Emitted(FlaggedField(), env) then (if v.Number? then Some(Codec.Signed(v.n, 4)) else None)
               else if v.Absent? then Some([]) else None
  {
    var (g, f) := (FlaggedSchema(), FlaggedField());
    hide Codec.Signed, Codec.Fits, Emitted;
    var call := Call(1, true, Type(1, true, []));
    assert Create(f.e, env) == Type(1, true, []);
    assert Named(f.e, f.bare, env) == Some(call);
    assert Match(g.types[1][0].result, Type(1, true, []), map[], true) == Some(map[]);
    assert Write(g, call, v) == WriteBase(IntKind, v);
    assert [f][1..] == [] && [v][1..] == [] && WriteFields(g, [], env, []) == Some([]);
    if v.Number? {
      assert Codec.Signed(v.n, 4) + [] == Codec.Signed(v.n, 4);
    }
  }
}
