/** The treap of the parser generator (generator/tree.h): what its operations make of
    a tree as a value, and the order and shape they keep. */
module Treap {
  import opened Wrappers

  // A key with what is stored under it and its priority.
  datatype Entry<+V> = Entry(key: int, value: V, priority: int)

  datatype Tree<+V> = Leaf | Node(left: Tree<V>, entry: Entry<V>, right: Tree<V>)

  function InOrder<V>(t: Tree<V>): seq<Entry<V>> {
    match t
    case Leaf => []
    case Node(l, e, r) => InOrder(l) + [e] + InOrder(r)
  }

  // ---- The operations ----

  // Entries up to x go left, later ones right.
  function Split<V>(t: Tree<V>, x: int): (Tree<V>, Tree<V>) {
    match t
    case Leaf => (Leaf, Leaf)
    case Node(l, e, r) =>
      if x < e.key then
        var (a, b) := Split(l, x);
        (a, Node(b, e, r))
      else
        var (a, b) := Split(r, x);
        (Node(l, e, a), b)
  }

  // None where the assertion that the key differs fails.
  function Insert<V>(t: Tree<V>, n: Entry<V>): Option<Tree<V>> {
    match t
    case Leaf => Some(Node(Leaf, n, Leaf))
    case Node(l, e, r) =>
      if n.priority > e.priority then
        var (a, b) := Split(t, n.key);
        Some(Node(a, n, b))
      else if n.key < e.key then
        var i := Insert(l, n);
        if i.None? then None else Some(Node(i.value, e, r))
      else if n.key > e.key then
        var i := Insert(r, n);
        if i.None? then None else Some(Node(l, e, i.value))
      else None
  }

  function Merge<V>(l: Tree<V>, r: Tree<V>): Tree<V> {
    if l.Leaf? then r
    else if r.Leaf? then l
    else if l.entry.priority > r.entry.priority then Node(l.left, l.entry, Merge(l.right, r))
    else Node(Merge(l, r.left), r.entry, r.right)
  }

  // None where the assertion that the tree is not empty fails.
  function Delete<V>(t: Tree<V>, x: int): Option<Tree<V>> {
    match t
    case Leaf => None
    case Node(l, e, r) =>
      if x == e.key then Some(Merge(l, r))
      else if x < e.key then
        var d := Delete(l, x);
        if d.None? then None else Some(Node(d.value, e, r))
      else
        var d := Delete(r, x);
        if d.None? then None else Some(Node(l, e, d.value))
  }

  function Lookup<V>(t: Tree<V>, x: int): Option<Entry<V>> {
    match t
    case Leaf => None
    case Node(l, e, r) => if x == e.key then Some(e) else if x < e.key then Lookup(l, x) else Lookup(r, x)
  }

  function Min<V>(t: Tree<V>): Option<Entry<V>> {
    match t
    case Leaf => None
    case Node(l, e, r) => if l.Leaf? then Some(e) else Min(l)
  }

  // ---- Order ----

  predicate Sorted<V>(s: seq<Entry<V>>) { forall i, j | 0 <= i < j < |s| :: s[i].key < s[j].key }

  predicate Below<V>(s: seq<Entry<V>>, x: int) { forall i | 0 <= i < |s| :: s[i].key < x }

  predicate Above<V>(s: seq<Entry<V>>, x: int) { forall i | 0 <= i < |s| :: s[i].key > x }

  predicate Ordered<V>(t: Tree<V>) { Sorted(InOrder(t)) }

  predicate Under<V>(t: Tree<V>, priority: int) {
    t.Leaf? || t.entry.priority <= priority
  }

  // No entry has a higher priority than one above it.
  predicate Heap<V>(t: Tree<V>) {
    t.Leaf? || (Under(t.left, t.entry.priority) && Under(t.right, t.entry.priority) && Heap(t.left) && Heap(t.right))
  }

  predicate IsTreap<V>(t: Tree<V>) { Ordered(t) && Heap(t) }

  lemma SortedParts<V>(a: seq<Entry<V>>, e: Entry<V>, b: seq<Entry<V>>)
    ensures Sorted(a + [e] + b) <==> Sorted(a) && Sorted(b) && Below(a, e.key) && Above(b, e.key)
  {
    var s := a + [e] + b;
    assert s[|a|] == e;
    assert forall i | 0 <= i < |a| :: s[i] == a[i];
    assert forall i | 0 <= i < |b| :: s[|a| + 1 + i] == b[i];
    if Sorted(a) && Sorted(b) && Below(a, e.key) && Above(b, e.key) {
      forall i, j | 0 <= i < j < |s| ensures s[i].key < s[j].key {
        assert i < |a| || s[i] == e || s[i] == b[i - |a| - 1];
        assert j < |a| || s[j] == e || s[j] == b[j - |a| - 1];
      }
    }
  }

  lemma {:induction false} NodeOrder<V>(t: Tree<V>)
    requires t.Node?
    ensures Ordered(t) <==> Ordered(t.left) && Ordered(t.right)
                            && Below(InOrder(t.left), t.entry.key) && Above(InOrder(t.right), t.entry.key)
  {
    SortedParts(InOrder(t.left), t.entry, InOrder(t.right));
  }

  // ---- Split ----

  // Splitting cuts the sequence of entries behind x.
  lemma {:induction false} SplitCuts<V>(t: Tree<V>, x: int)
    requires Ordered(t)
    ensures var (a, b) := Split(t, x);
            && InOrder(a) + InOrder(b) == InOrder(t)
            && Below(InOrder(a), x + 1) && Above(InOrder(b), x)
  {
    SplitJoins(t, x);
    if t.Node? {
      NodeOrder(t);
      if x < t.entry.key {
        SplitCuts(t.left, x);
        AboveAll(InOrder(Split(t.left, x).1), t.entry, InOrder(t.right), x);
      } else {
        SplitCuts(t.right, x);
        BelowAll(InOrder(t.left), t.entry, InOrder(Split(t.right, x).0), x + 1);
      }
    }
  }

  lemma {:induction false} SplitJoins<V>(t: Tree<V>, x: int)
    ensures var (a, b) := Split(t, x); InOrder(a) + InOrder(b) == InOrder(t)
  {
    if t.Node? {
      var s := if x < t.entry.key then Split(t.left, x) else Split(t.right, x);
      var (a, b) := (InOrder(s.0), InOrder(s.1));
      if x < t.entry.key {
        SplitJoins(t.left, x);
        GrowRight(a, [], b, [t.entry], InOrder(t.right));
      } else {
        SplitJoins(t.right, x);
        GrowLeft(InOrder(t.left), [t.entry], a, [], b);
      }
    }
  }

  lemma AboveAll<V>(a: seq<Entry<V>>, e: Entry<V>, b: seq<Entry<V>>, x: int)
    requires Above(a, x) && e.key > x && Above(b, e.key)
    ensures Above(a + [e] + b, x)
  {
  }

  lemma BelowAll<V>(a: seq<Entry<V>>, e: Entry<V>, b: seq<Entry<V>>, x: int)
    requires Below(a, e.key) && e.key < x && Below(b, x)
    ensures Below(a + [e] + b, x)
  {
  }

  lemma {:induction false} SplitHeap<V>(t: Tree<V>, x: int, p: int)
    requires Heap(t) && Under(t, p)
    ensures var (a, b) := Split(t, x); Heap(a) && Heap(b) && Under(a, p) && Under(b, p)
  {
    if t.Node? {
      if x < t.entry.key {
        SplitHeap(t.left, x, t.entry.priority);
      } else {
        SplitHeap(t.right, x, t.entry.priority);
      }
    }
  }

  // ---- Merge ----

  lemma {:induction false} MergeJoins<V>(l: Tree<V>, r: Tree<V>)
    ensures InOrder(Merge(l, r)) == InOrder(l) + InOrder(r)
  {
    if l.Node? && r.Node? {
      if l.entry.priority > r.entry.priority {
        MergeJoins(l.right, r);
        assert InOrder(l.left) + [l.entry] + (InOrder(l.right) + InOrder(r)) == InOrder(l) + InOrder(r);
      } else {
        MergeJoins(l, r.left);
        assert (InOrder(l) + InOrder(r.left)) + [r.entry] + InOrder(r.right) == InOrder(l) + InOrder(r);
      }
    }
  }

  lemma {:induction false} MergeHeap<V>(l: Tree<V>, r: Tree<V>, p: int)
    requires Heap(l) && Heap(r) && Under(l, p) && Under(r, p)
    ensures Heap(Merge(l, r)) && Under(Merge(l, r), p)
  {
    if l.Node? && r.Node? {
      if l.entry.priority > r.entry.priority {
        MergeHeap(l.right, r, l.entry.priority);
      } else {
        MergeHeap(l, r.left, r.entry.priority);
      }
    }
  }

  // ---- Lookup ----

  predicate Has<V>(t: Tree<V>, x: int) { exists i :: 0 <= i < |InOrder(t)| && InOrder(t)[i].key == x }

  // A search finds the entry with the key exactly when there is one.
  lemma {:induction false} LookupFinds<V>(t: Tree<V>, x: int)
    requires Ordered(t)
    ensures Lookup(t, x).Some? <==> Has(t, x)
    ensures Lookup(t, x).Some? ==> Lookup(t, x).value in InOrder(t) && Lookup(t, x).value.key == x
  {
    if t.Node? {
      NodeOrder(t);
      HasNode(t, x);
      Outside(t.left, x);
      Outside(t.right, x);
      hide Has, Ordered, Below, Above;
      LookupFinds(t.left, x);
      LookupFinds(t.right, x);
    }
  }

  lemma {:induction false} HasNode<V>(t: Tree<V>, x: int)
    requires t.Node?
    ensures Has(t, x) <==> Has(t.left, x) || t.entry.key == x || Has(t.right, x)
  {
    var (l, r, s) := (InOrder(t.left), InOrder(t.right), InOrder(t));
    assert s == l + [t.entry] + r && s[|l|] == t.entry;
    if i :| 0 <= i < |l| && l[i].key == x {
      assert s[i] == l[i];
    }
    if i :| 0 <= i < |r| && r[i].key == x {
      assert s[|l| + 1 + i] == r[i];
    }
    if i :| 0 <= i < |s| && s[i].key == x {
      assert if i < |l| then s[i] == l[i] else i == |l| || s[i] == r[i - |l| - 1];
    }
  }

  lemma Outside<V>(t: Tree<V>, x: int)
    ensures forall y | Below(InOrder(t), y) && x >= y :: !Has(t, x)
    ensures forall y | Above(InOrder(t), y) && x <= y :: !Has(t, x)
  {
  }

  lemma {:induction false} MinIsFirst<V>(t: Tree<V>)
    ensures Min(t) == if InOrder(t) == [] then None else Some(InOrder(t)[0])
  {
    if t.Node? && t.left.Node? {
      MinIsFirst(t.left);
      assert |InOrder(t.left)| > 0;
    }
  }

  // The position of an entry with the key x.
  lemma {:induction false} EntryAt<V>(t: Tree<V>, i: nat)
    requires Ordered(t) && i < |InOrder(t)|
    ensures Lookup(t, InOrder(t)[i].key) == Some(InOrder(t)[i])
  {
    var x := InOrder(t)[i].key;
    assert Has(t, x);
    LookupFinds(t, x);
    var j :| 0 <= j < |InOrder(t)| && InOrder(t)[j] == Lookup(t, x).value;
  }

  // What a search returns depends only on the entries, not on the shape.
  lemma {:induction false} LookupByEntries<V>(t: Tree<V>, x: int, r: Option<Entry<V>>)
    requires Ordered(t)
    requires if r.Some? then r.value in InOrder(t) && r.value.key == x else forall e | e in InOrder(t) :: e.key != x
    ensures Lookup(t, x) == r
  {
    LookupFinds(t, x);
    if r.Some? {
      var i :| 0 <= i < |InOrder(t)| && InOrder(t)[i] == r.value;
      EntryAt(t, i);
    }
  }

  // ---- Insertion ----

  lemma {:induction false} RootIsHighest<V>(t: Tree<V>, e: Entry<V>)
    requires Heap(t) && e in InOrder(t)
    ensures t.Node? && e.priority <= t.entry.priority
  {
    if e in InOrder(t.left) {
      RootIsHighest(t.left, e);
    } else if e in InOrder(t.right) {
      RootIsHighest(t.right, e);
    }
  }

  // The entries up to x, which an insertion of x leaves on its left.
  function UpTo<V>(t: Tree<V>, x: int): seq<Entry<V>> { InOrder(Split(t, x).0) }

  function Beyond<V>(t: Tree<V>, x: int): seq<Entry<V>> { InOrder(Split(t, x).1) }

  // The assertion fails exactly when the key is there with at least the new priority;
  // otherwise the new entry goes behind the entries up to its key.
  lemma {:induction false} InsertPlaces<V>(t: Tree<V>, n: Entry<V>)
    requires IsTreap(t)
    ensures Insert(t, n).None? <==> Lookup(t, n.key).Some? && Lookup(t, n.key).value.priority >= n.priority
    ensures Insert(t, n).Some? ==> InOrder(Insert(t, n).value) == UpTo(t, n.key) + [n] + Beyond(t, n.key)
  {
    if t.Node? {
      NodeOrder(t);
      if n.priority > t.entry.priority {
        LookupFinds(t, n.key);
        if Lookup(t, n.key).Some? {
          RootIsHighest(t, Lookup(t, n.key).value);
        }
      } else if n.key < t.entry.key {
        InsertPlaces(t.left, n);
        GrowRight(UpTo(t.left, n.key), [n], Beyond(t.left, n.key), [t.entry], InOrder(t.right));
      } else if n.key > t.entry.key {
        InsertPlaces(t.right, n);
        GrowLeft(InOrder(t.left), [t.entry], UpTo(t.right, n.key), [n], Beyond(t.right, n.key));
      }
    }
  }

  lemma {:induction false} InsertHeap<V>(t: Tree<V>, n: Entry<V>, p: int)
    requires Heap(t) && Under(t, p) && n.priority <= p && Insert(t, n).Some?
    ensures Heap(Insert(t, n).value) && Under(Insert(t, n).value, p)
  {
    if t.Node? {
      if n.priority > t.entry.priority {
        SplitHeap(t, n.key, n.priority);
      } else if n.key < t.entry.key {
        InsertHeap(t.left, n, t.entry.priority);
      } else {
        InsertHeap(t.right, n, t.entry.priority);
      }
    }
  }

  // Inserting an absent key keeps the treap and adds exactly the new entry.
  lemma {:induction false} InsertAdds<V>(t: Tree<V>, n: Entry<V>)
    requires IsTreap(t) && !Has(t, n.key)
    ensures Insert(t, n).Some? && IsTreap(Insert(t, n).value)
    ensures forall e :: e in InOrder(Insert(t, n).value) <==> e in InOrder(t) || e == n
    ensures forall x :: Lookup(Insert(t, n).value, x) == if x == n.key then Some(n) else Lookup(t, x)
  {
    LookupFinds(t, n.key);
    InsertPlaces(t, n);
    SplitCuts(t, n.key);
    var u := Insert(t, n).value;
    var a, b := UpTo(t, n.key), Beyond(t, n.key);
    AbsentCut(t, n.key, a, b);
    SortedParts(a, n, b);
    InsertHeap(t, n, if t.Node? && t.entry.priority > n.priority then t.entry.priority else n.priority);
    assert InOrder(u) == a + [n] + b && InOrder(t) == a + b;
    forall x ensures Lookup(u, x) == if x == n.key then Some(n) else Lookup(t, x) {
      LookupFinds(t, x);
      if x != n.key && Lookup(t, x).None? {
        NoneHas(t, x);
      }
      LookupByEntries(u, x, if x == n.key then Some(n) else Lookup(t, x));
    }
  }

  lemma {:induction false} NoneHas<V>(t: Tree<V>, x: int)
    requires !Has(t, x)
    ensures forall e | e in InOrder(t) :: e.key != x
  {
    forall e | e in InOrder(t) ensures e.key != x {
      var i :| 0 <= i < |InOrder(t)| && InOrder(t)[i] == e;
    }
  }

  lemma {:induction false} AbsentCut<V>(t: Tree<V>, x: int, a: seq<Entry<V>>, b: seq<Entry<V>>)
    requires Ordered(t) && !Has(t, x) && InOrder(t) == a + b && Below(a, x + 1)
    ensures Sorted(a) && Sorted(b) && Below(a, x)
  {
    NoneHas(t, x);
    assert forall i | 0 <= i < |a| :: (a + b)[i] == a[i] && a[i] in a + b;
    assert forall i | 0 <= i < |b| :: (a + b)[|a| + i] == b[i];
  }

  // A key that is there with a lower priority slips past the assertion and is stored twice.
  lemma {:induction false} DuplicateSlipsIn<V>(t: Tree<V>, n: Entry<V>)
    requires IsTreap(t) && Has(t, n.key) && Insert(t, n).Some?
    ensures Lookup(t, n.key).Some? && Lookup(t, n.key).value.priority < n.priority
    ensures !Ordered(Insert(t, n).value)
  {
    InsertPlaces(t, n);
    LookupFinds(t, n.key);
    SplitCuts(t, n.key);
    var a, b := UpTo(t, n.key), Beyond(t, n.key);
    var e := Lookup(t, n.key).value;
    assert e in a + b;
    assert e in a;
    SortedParts(a, n, b);
    BelowEach(a, n.key, e);
  }

  lemma BelowEach<V>(s: seq<Entry<V>>, x: int, e: Entry<V>)
    ensures Below(s, x) && e in s ==> e.key < x
  {
  }

  // ---- Deletion ----

  lemma GrowRight<E>(a: seq<E>, f: seq<E>, b: seq<E>, e: seq<E>, r: seq<E>)
    ensures (a + f + b) + e + r == a + f + (b + e + r) && (a + b) + e + r == a + (b + e + r)
  {
  }

  lemma GrowLeft<E>(l: seq<E>, e: seq<E>, a: seq<E>, f: seq<E>, b: seq<E>)
    ensures l + e + (a + f + b) == (l + e + a) + f + b && l + e + (a + b) == (l + e + a) + b
  {
  }

  // Deletion fails exactly on an absent key; otherwise it takes out that one entry.
  lemma {:induction false} DeleteTakesOut<V>(t: Tree<V>, x: int) returns (a: seq<Entry<V>>, b: seq<Entry<V>>)
    requires Ordered(t)
    ensures Delete(t, x).Some? <==> Lookup(t, x).Some?
    ensures Delete(t, x).Some? ==> InOrder(t) == a + [Lookup(t, x).value] + b && InOrder(Delete(t, x).value) == a + b
  {
    a, b := [], [];
    if t.Node? {
      NodeOrder(t);
      var l, e, r := InOrder(t.left), t.entry, InOrder(t.right);
      if x == e.key {
        a, b := l, r;
        MergeJoins(t.left, t.right);
      } else if x < e.key {
        a, b := DeleteTakesOut(t.left, x);
        if Delete(t.left, x).Some? {
          GrowRight(a, [Lookup(t.left, x).value], b, [e], r);
        }
        b := b + [e] + r;
      } else {
        a, b := DeleteTakesOut(t.right, x);
        if Delete(t.right, x).Some? {
          GrowLeft(l, [e], a, [Lookup(t.right, x).value], b);
        }
        a := l + [e] + a;
      }
    }
  }

  lemma {:induction false} DeleteHeap<V>(t: Tree<V>, x: int, p: int)
    requires Heap(t) && Under(t, p) && Delete(t, x).Some?
    ensures Heap(Delete(t, x).value) && Under(Delete(t, x).value, p)
  {
    if x == t.entry.key {
      MergeHeap(t.left, t.right, t.entry.priority);
    } else if x < t.entry.key {
      DeleteHeap(t.left, x, t.entry.priority);
    } else {
      DeleteHeap(t.right, x, t.entry.priority);
    }
  }

  // Deleting a key keeps the treap and every other entry.
  lemma {:induction false} DeleteRemoves<V>(t: Tree<V>, x: int)
    requires IsTreap(t)
    ensures Delete(t, x).Some? <==> Has(t, x)
    ensures Has(t, x) ==> IsTreap(Delete(t, x).value)
    ensures Has(t, x) ==> forall e :: e in InOrder(Delete(t, x).value) <==> e in InOrder(t) && e.key != x
    ensures Has(t, x) ==> forall y :: Lookup(Delete(t, x).value, y) == if y == x then None else Lookup(t, y)
  {
    LookupFinds(t, x);
    var a, b := DeleteTakesOut(t, x);
    if Has(t, x) {
      var u := Delete(t, x).value;
      DeleteHeap(t, x, t.entry.priority);
      TakenOut(a, Lookup(t, x).value, b);
      forall y ensures Lookup(u, y) == if y == x then None else Lookup(t, y) {
        LookupFinds(t, y);
        if Lookup(t, y).None? {
          NoneHas(t, y);
        }
        LookupByEntries(u, y, if y == x then None else Lookup(t, y));
      }
    }
  }

  lemma TakenOut<V>(a: seq<Entry<V>>, f: Entry<V>, b: seq<Entry<V>>)
    requires Sorted(a + [f] + b)
    ensures Sorted(a + b)
    ensures forall e :: e in a + b <==> e in a + [f] + b && e.key != f.key
  {
    SortedParts(a, f, b);
    forall i, j | 0 <= i < j < |a + b| ensures (a + b)[i].key < (a + b)[j].key {
      assert i < |a| || (a + b)[i] == b[i - |a|];
      assert j < |a| || (a + b)[j] == b[j - |a|];
    }
    forall e ensures e in a + b <==> e in a + [f] + b && e.key != f.key {
      if e in a + b {
        assert e in a || e in b;
      }
    }
  }

  // ---- One shape for one set of entries ----

  predicate DistinctPriorities<V>(s: seq<Entry<V>>) {
    forall i, j | 0 <= i < |s| && 0 <= j < |s| && i != j :: s[i].priority != s[j].priority
  }

  // In a heap the root stands where the highest priority is.
  lemma {:induction false} RootPosition<V>(t: Tree<V>, i: nat)
    requires Heap(t) && DistinctPriorities(InOrder(t)) && i < |InOrder(t)|
    requires forall j | 0 <= j < |InOrder(t)| :: InOrder(t)[j].priority <= InOrder(t)[i].priority
    ensures t.Node? && i == |InOrder(t.left)|
  {
    RootIsHighest(t, InOrder(t)[i]);
    assert InOrder(t)[|InOrder(t.left)|] == t.entry;
  }

  // Entries in the same order with distinct priorities make the same tree.
  lemma {:induction false} SameShape<V>(t: Tree<V>, u: Tree<V>)
    requires Heap(t) && Heap(u) && InOrder(t) == InOrder(u) && DistinctPriorities(InOrder(t))
    ensures t == u
  {
    if t.Node? {
      var l, e, r := InOrder(t.left), t.entry, InOrder(t.right);
      var s := InOrder(t);
      assert s[|l|] == e;
      forall j | 0 <= j < |s| ensures s[j].priority <= e.priority {
        RootIsHighest(t, s[j]);
      }
      RootPosition(u, |l|);
      assert l == s[..|l|] && r == s[|l| + 1..];
      assert InOrder(u.left) == s[..|l|] && InOrder(u.right) == s[|l| + 1..] && u.entry == s[|l|];
      DistinctParts(l, e, r);
      SameShape(t.left, u.left);
      SameShape(t.right, u.right);
    }
  }

  lemma DistinctParts<V>(l: seq<Entry<V>>, e: Entry<V>, r: seq<Entry<V>>)
    requires DistinctPriorities(l + [e] + r)
    ensures DistinctPriorities(l) && DistinctPriorities(r)
  {
    var s := l + [e] + r;
    assert forall i | 0 <= i < |l| :: s[i] == l[i];
    assert forall i | 0 <= i < |r| :: s[|l| + 1 + i] == r[i];
  }

  // A sorted sequence is determined by what it holds.
  lemma {:induction false} SortedUnique<V>(s: seq<Entry<V>>, u: seq<Entry<V>>)
    requires Sorted(s) && Sorted(u) && forall e :: e in s <==> e in u
    ensures s == u
  {
    if s == [] {
      SameEmpty(s, u);
    } else {
      assert s[0] in u && u != [] && u[0] in s;
      var i :| 0 <= i < |u| && u[i] == s[0];
      var j :| 0 <= j < |s| && s[j] == u[0];
      assert s[0] == u[0];
      forall e ensures e in s[1..] <==> e in u[1..] {
        Tail(s, e);
        Tail(u, e);
      }
      SortedUnique(s[1..], u[1..]);
    }
  }

  lemma SameEmpty<V>(s: seq<Entry<V>>, u: seq<Entry<V>>)
    ensures s == [] && (forall e :: e in s <==> e in u) ==> u == []
  {
    if u != [] {
      assert u[0] in u;
    }
  }

  lemma Tail<V>(s: seq<Entry<V>>, e: Entry<V>)
    requires Sorted(s) && s != []
    ensures e in s[1..] <==> e in s && e != s[0]
  {
  }

  // With distinct priorities the shape depends only on the set of entries.
  lemma {:induction false} ShapeFromEntries<V>(t: Tree<V>, u: Tree<V>)
    requires IsTreap(t) && IsTreap(u) && DistinctPriorities(InOrder(t))
    requires forall e :: e in InOrder(t) <==> e in InOrder(u)
    ensures t == u
  {
    SortedUnique(InOrder(t), InOrder(u));
    SameShape(t, u);
  }

  // Deleting the key just inserted restores the tree.
  lemma {:induction false} DeleteUndoesInsert<V>(t: Tree<V>, n: Entry<V>)
    requires IsTreap(t) && !Has(t, n.key) && DistinctPriorities(InOrder(t))
    ensures Insert(t, n).Some? && Delete(Insert(t, n).value, n.key) == Some(t)
  {
    InsertAdds(t, n);
    var u := Insert(t, n).value;
    LookupFinds(u, n.key);
    DeleteRemoves(u, n.key);
    NoneHas(t, n.key);
    ShapeFromEntries(t, Delete(u, n.key).value);
  }

  // ---- Insertion order ----

  predicate DistinctKeys<V>(ns: seq<Entry<V>>) {
    forall i, j | 0 <= i < j < |ns| :: ns[i].key != ns[j].key
  }

  // Inserting one entry after the other; None once an assertion has failed.
  function Build<V>(ns: seq<Entry<V>>): Option<Tree<V>> {
    if ns == [] then Some(Leaf)
    else
      var t := Build(ns[..|ns| - 1]);
      if t.None? then None else Insert(t.value, ns[|ns| - 1])
  }

  ghost predicate Holds<V(!new)>(t: Tree<V>, ns: seq<Entry<V>>) { forall e :: e in InOrder(t) <==> e in ns }

  lemma HeldEntry<V(!new)>(t: Tree<V>, ns: seq<Entry<V>>, i: nat)
    requires Holds(t, ns) && i < |InOrder(t)|
    ensures InOrder(t)[i] in ns
  {
    var e := InOrder(t)[i];
    assert e in InOrder(t);
  }

  lemma {:induction false} BuildHolds<V(!new)>(ns: seq<Entry<V>>)
    requires DistinctKeys(ns)
    ensures Build(ns).Some? && IsTreap(Build(ns).value) && Holds(Build(ns).value, ns)
    decreases |ns|
  {
    if ns != [] {
      var before, n := ns[..|ns| - 1], ns[|ns| - 1];
      BuildHolds(before);
      var t := Build(before).value;
      assert ns == before + [n];
      if Has(t, n.key) {
        var i :| 0 <= i < |InOrder(t)| && InOrder(t)[i].key == n.key;
        HeldEntry(t, before, i);
      }
      InsertAdds(t, n);
    }
  }

  // The order of insertion leaves no trace in the tree.
  lemma {:induction false} InsertionOrderIrrelevant<V(!new)>(ms: seq<Entry<V>>, ns: seq<Entry<V>>)
    requires DistinctKeys(ms) && DistinctKeys(ns) && forall e :: e in ms <==> e in ns
    requires forall a, b | a in ms && b in ms && a != b :: a.priority != b.priority
    ensures Build(ms) == Build(ns) && Build(ms).Some?
  {
    BuildHolds(ms);
    BuildHolds(ns);
    var s := InOrder(Build(ms).value);
    forall i, j | 0 <= i < |s| && 0 <= j < |s| && i != j ensures s[i].priority != s[j].priority {
      HeldEntry(Build(ms).value, ms, i);
      HeldEntry(Build(ms).value, ms, j);
      assert s[i].key != s[j].key;
    }
    ShapeFromEntries(Build(ms).value, Build(ns).value);
  }
}
