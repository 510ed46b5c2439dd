/** Small shared datatypes and set helpers. */
module Wrappers {
  datatype Option<+T> = None | Some(value: T)

  lemma ElementOf<T>(s: set<T>) returns (x: T)
    requires s != {}
    ensures x in s
  {
    x :| x in s;
  }

  lemma {:induction false} LeastExists(s: set<int>) returns (m: int)
    requires s != {}
    ensures m in s && forall k | k in s :: m <= k
    decreases s
  {
    var x := ElementOf(s);
    var rest := s - {x};
    if rest == {} {
      m := x;
      forall k | k in s ensures m <= k {
        assert k == x || k in rest;
      }
    } else {
      var y := LeastExists(rest);
      m := if x < y then x else y;
      forall k | k in s ensures m <= k {
        assert k == x || k in rest;
      }
    }
  }

  lemma Assoc<T>(x: seq<T>, y: seq<T>, z: seq<T>)
    ensures (x + y) + z == x + (y + z)
  {
  }

  /** The least element of a nonempty finite set, which is what the first
      entry of an ordered map is keyed by. */
  function Least(s: set<int>): (m: int)
    requires s != {}
    ensures m in s && forall k | k in s :: m <= k
  {
    assert exists m :: m in s && forall k | k in s :: m <= k by {
      var l := LeastExists(s);
    }
    var m :| m in s && forall k | k in s :: m <= k;
    m
  }
}
