/**
 The ORDER BY clauses of the stores. Every query sorts a finite set of rows by two columns, so a row
 is represented by its sort key; keys compare lexicographically.
 */
module Ordering {
  datatype Key = Key(major: int, minor: int)

  predicate Below(a: Key, b: Key) {
    a.major < b.major || (a.major == b.major && a.minor < b.minor)
  }

  predicate IsLeast(k: Key, s: set<Key>) {
    k in s && forall x | x in s :: x == k || Below(k, x)
  }

  lemma LeastExists(s: set<Key>)
    requires s != {}
    ensures exists k :: IsLeast(k, s)
  {
    var x :| x in s;
    var rest := s - {x};
    if rest == {} {
      assert s == {x};
      assert IsLeast(x, s);
    } else {
      LeastExists(rest);
      var k :| IsLeast(k, rest);
      assert forall y | y in s :: y == x || y in rest;
      assert IsLeast(if Below(x, k) then x else k, s);
    }
  }

  /** The first row of an ordered query. */
  function Least(s: set<Key>): (k: Key)
    requires s != {}
    ensures IsLeast(k, s)
  {
    LeastExists(s);
    var k :| IsLeast(k, s);
    k
  }

  ghost predicate Increasing(q: seq<Key>) {
    forall i, j | 0 <= i < j < |q| :: Below(q[i], q[j])
  }

  /** All rows of an ordered query. */
  function Ascending(s: set<Key>): (q: seq<Key>)
    ensures Increasing(q)
    ensures forall x :: x in q <==> x in s
    ensures |q| == |s|
  {
    if s == {} then [] else
      var k := Least(s);
      [k] + Ascending(s - {k})
  }

  /** An ordered query has one answer only. */
  lemma {:induction false} AscendingIsUnique(s: set<Key>, q: seq<Key>)
    requires Increasing(q)
    requires forall x :: x in q <==> x in s
    ensures q == Ascending(s)
  {
    if q == [] {
      assert s == {};
    } else {
      assert q[0] in q;
      var k := Least(s);
      assert k in q;
      assert q[0] == k by {
        var i :| 0 <= i < |q| && q[i] == k;
      }
      forall x
        ensures x in q[1..] <==> x in s - {k}
      {
        if x in s - {k} {
          var i :| 0 <= i < |q| && q[i] == x;
          assert q[1..][i - 1] == x;
        }
      }
      AscendingIsUnique(s - {k}, q[1..]);
    }
  }
}
