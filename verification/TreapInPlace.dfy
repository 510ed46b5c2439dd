/** The treap as linked nodes whose pointers the operations change in place
    (generator/tree.h). */
module TreapInPlace {
  import opened Treap
  import opened Wrappers

  class TreeNode<V> {
    const entry: Entry<V>
    var left: TreeNode?<V>
    var right: TreeNode?<V>
    ghost var repr: set<TreeNode<V>>
    ghost var model: Tree<V>

    constructor (entry: Entry<V>)
      ensures Valid() && fresh(repr) && model == Node(Leaf, entry, Leaf)
    {
      this.entry, left, right, repr, model := entry, null, null, {this}, Node(Leaf, entry, Leaf);
    }

    // repr holds this node and those below it; model is the tree they form.
    ghost predicate Valid()
      reads this, repr
      decreases repr
    {
      && this in repr
      && (left != null ==> left in repr && left.repr <= repr && this !in left.repr && left.Valid())
      && (right != null ==> right in repr && right.repr <= repr && this !in right.repr && right.Valid())
      && (left != null && right != null ==> left.repr !! right.repr)
      && repr == {this} + (if left == null then {} else left.repr) + (if right == null then {} else right.repr)
      && model == Node(if left == null then Leaf else left.model, entry, if right == null then Leaf else right.model)
    }

    // Hangs l and r below this node.
    method Link(l: TreeNode?<V>, r: TreeNode?<V>)
      requires ValidTree(l) && ValidTree(r) && ReprOf(l) !! ReprOf(r)
      requires this !in ReprOf(l) && this !in ReprOf(r)
      modifies this
      ensures Valid() && left == l && right == r
      ensures repr == {this} + ReprOf(l) + ReprOf(r) && model == Node(ModelOf(l), entry, ModelOf(r))
    {
      left, right := l, r;
      repr := {this} + ReprOf(l) + ReprOf(r);
      model := Node(ModelOf(l), entry, ModelOf(r));
    }
  }

  ghost function ReprOf<V>(t: TreeNode?<V>): set<TreeNode<V>>
    reads t
  {
    if t == null then {} else t.repr
  }

  ghost function ModelOf<V>(t: TreeNode?<V>): Tree<V>
    reads t
  {
    if t == null then Leaf else t.model
  }

  ghost predicate ValidTree<V>(t: TreeNode?<V>)
    reads t, ReprOf(t)
  {
    t == null || t.Valid()
  }

  method SplitInPlace<V>(t: TreeNode?<V>, x: int) returns (l: TreeNode?<V>, r: TreeNode?<V>)
    requires ValidTree(t)
    modifies ReprOf(t)
    ensures ValidTree(l) && ValidTree(r) && ReprOf(l) !! ReprOf(r)
    ensures ReprOf(l) + ReprOf(r) == old(ReprOf(t))
    ensures ModelOf(l) == Split(old(ModelOf(t)), x).0 && ModelOf(r) == Split(old(ModelOf(t)), x).1
    decreases ModelOf(t), 1
  {
    if t == null {
      l, r := null, null;
    } else if x < t.entry.key {
      l := SplitLeft(t, x);
      r := t;
    } else {
      r := SplitRight(t, x);
      l := t;
    }
  }

  // Cuts the left subtree and keeps the node on top of its upper half.
  method SplitLeft<V>(t: TreeNode<V>, x: int) returns (l: TreeNode?<V>)
    requires t.Valid() && x < t.entry.key
    modifies t.repr
    ensures ValidTree(l) && t.Valid() && ReprOf(l) !! t.repr && ReprOf(l) + t.repr == old(t.repr)
    ensures ModelOf(l) == Split(old(t.model), x).0 && t.model == Split(old(t.model), x).1
    decreases t.model, 0
  {
    assert ValidTree(t.right);
    var b;
    l, b := SplitInPlace(t.left, x);
    t.Link(b, t.right);
  }

  method SplitRight<V>(t: TreeNode<V>, x: int) returns (r: TreeNode?<V>)
    requires t.Valid() && x >= t.entry.key
    modifies t.repr
    ensures ValidTree(r) && t.Valid() && ReprOf(r) !! t.repr && t.repr + ReprOf(r) == old(t.repr)
    ensures t.model == Split(old(t.model), x).0 && ModelOf(r) == Split(old(t.model), x).1
    decreases t.model, 0
  {
    assert ValidTree(t.left);
    var a;
    a, r := SplitInPlace(t.right, x);
    t.Link(t.left, a);
  }

  // A new root above the halves of t.
  method RootInPlace<V>(t: TreeNode<V>, n: Entry<V>) returns (r: TreeNode<V>)
    requires t.Valid()
    modifies t.repr
    ensures r.Valid() && fresh(r) && r.repr == old(t.repr) + {r}
    ensures r.model == Node(Split(old(t.model), n.key).0, n, Split(old(t.model), n.key).1)
  {
    r := new TreeNode(n);
    var a, b := SplitInPlace(t, n.key);
    r.Link(a, b);
  }

  // The assertion on the comparison is the precondition.
  method InsertInPlace<V>(t: TreeNode?<V>, n: Entry<V>) returns (r: TreeNode<V>, ghost added: TreeNode<V>)
    requires ValidTree(t) && Insert(ModelOf(t), n).Some?
    modifies ReprOf(t)
    ensures r.Valid() && fresh(added) && r.repr == old(ReprOf(t)) + {added}
    ensures Some(r.model) == Insert(old(ModelOf(t)), n)
    decreases ModelOf(t), 1
  {
    if t == null {
      r := new TreeNode(n);
      added := r;
    } else if n.priority > t.entry.priority {
      r := RootInPlace(t, n);
      added := r;
    } else {
      assert n.key != t.entry.key;
      if n.key < t.entry.key {
        added := InsertLeft(t, n);
      } else {
        added := InsertRight(t, n);
      }
      r := t;
    }
  }

  method InsertLeft<V>(t: TreeNode<V>, n: Entry<V>) returns (ghost added: TreeNode<V>)
    requires t.Valid() && Insert(ModelOf(t.left), n).Some?
    modifies t.repr
    ensures t.Valid() && fresh(added) && t.repr == old(t.repr) + {added}
    ensures t.model == Node(Insert(old(ModelOf(t.left)), n).value, t.entry, old(t.model).right)
    decreases t.model, 0
  {
    assert ValidTree(t.right);
    var l;
    l, added := InsertInPlace(t.left, n);
    t.Link(l, t.right);
  }

  method InsertRight<V>(t: TreeNode<V>, n: Entry<V>) returns (ghost added: TreeNode<V>)
    requires t.Valid() && Insert(ModelOf(t.right), n).Some?
    modifies t.repr
    ensures t.Valid() && fresh(added) && t.repr == old(t.repr) + {added}
    ensures t.model == Node(old(t.model).left, t.entry, Insert(old(ModelOf(t.right)), n).value)
    decreases t.model, 0
  {
    assert ValidTree(t.left);
    var s;
    s, added := InsertInPlace(t.right, n);
    t.Link(t.left, s);
  }

  method MergeInPlace<V>(l: TreeNode?<V>, r: TreeNode?<V>) returns (t: TreeNode?<V>)
    requires ValidTree(l) && ValidTree(r) && ReprOf(l) !! ReprOf(r)
    modifies ReprOf(l), ReprOf(r)
    ensures ValidTree(t) && ReprOf(t) == old(ReprOf(l) + ReprOf(r))
    ensures ModelOf(t) == Merge(old(ModelOf(l)), old(ModelOf(r)))
    decreases ReprOf(l) + ReprOf(r)
  {
    if l == null {
      t := r;
    } else if r == null {
      t := l;
    } else if l.entry.priority > r.entry.priority {
      assert ValidTree(l.left);
      var m := MergeInPlace(l.right, r);
      l.Link(l.left, m);
      t := l;
    } else {
      assert ValidTree(r.right);
      var m := MergeInPlace(l, r.left);
      r.Link(m, r.right);
      t := r;
    }
  }

  // The assertion that the tree is not empty is the precondition.
  method DeleteInPlace<V>(t: TreeNode?<V>, x: int) returns (r: TreeNode?<V>, ghost removed: TreeNode<V>)
    requires ValidTree(t) && Delete(ModelOf(t), x).Some?
    modifies ReprOf(t)
    ensures ValidTree(r) && removed in old(ReprOf(t)) && removed.entry.key == x && ReprOf(r) == old(ReprOf(t)) - {removed}
    ensures Some(ModelOf(r)) == Delete(old(ModelOf(t)), x)
    decreases ModelOf(t), 1
  {
    if x == t.entry.key {
      r := MergeInPlace(t.left, t.right);
      removed := t;
    } else {
      if x < t.entry.key {
        removed := DeleteLeft(t, x);
      } else {
        removed := DeleteRight(t, x);
      }
      r := t;
    }
  }

  method DeleteLeft<V>(t: TreeNode<V>, x: int) returns (ghost removed: TreeNode<V>)
    requires t.Valid() && Delete(ModelOf(t.left), x).Some?
    modifies t.repr
    ensures t.Valid() && removed in old(t.repr) && removed.entry.key == x && t.repr == old(t.repr) - {removed}
    ensures t.model == Node(Delete(old(ModelOf(t.left)), x).value, t.entry, old(t.model).right)
    decreases t.model, 0
  {
    assert ValidTree(t.right);
    var l;
    l, removed := DeleteInPlace(t.left, x);
    t.Link(l, t.right);
  }

  method DeleteRight<V>(t: TreeNode<V>, x: int) returns (ghost removed: TreeNode<V>)
    requires t.Valid() && Delete(ModelOf(t.right), x).Some?
    modifies t.repr
    ensures t.Valid() && removed in old(t.repr) && removed.entry.key == x && t.repr == old(t.repr) - {removed}
    ensures t.model == Node(old(t.model).left, t.entry, Delete(old(ModelOf(t.right)), x).value)
    decreases t.model, 0
  {
    assert ValidTree(t.left);
    var s;
    s, removed := DeleteInPlace(t.right, x);
    t.Link(t.left, s);
  }

  method LookupInPlace<V>(t: TreeNode?<V>, x: int) returns (r: Option<Entry<V>>)
    requires ValidTree(t)
    ensures r == Lookup(ModelOf(t), x)
  {
    var n := t;
    while n != null && n.entry.key != x
      invariant ValidTree(n) && Lookup(ModelOf(n), x) == Lookup(ModelOf(t), x)
      decreases ModelOf(n)
    {
      n := if x < n.entry.key then n.left else n.right;
    }
    r := if n == null then None else Some(n.entry);
  }

  method MinInPlace<V>(t: TreeNode?<V>) returns (r: Option<Entry<V>>)
    requires ValidTree(t)
    ensures r == Min(ModelOf(t))
  {
    if t == null {
      return None;
    }
    var n: TreeNode<V> := t;
    while n.left != null
      invariant n.Valid() && Min(n.model) == Min(ModelOf(t))
      decreases n.model
    {
      n := n.left;
    }
    r := Some(n.entry);
  }
}
