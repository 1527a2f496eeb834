// Finite queues of node numbers: the value-level view of the intrusive lists of pdm/include/cplist.h.

module Wrappers {
  datatype Option<+T> = None | Some(value: T)
}

module Queues {

  ghost predicate NoDup(q: seq<nat>) {
    forall i, j :: 0 <= i < j < |q| ==> q[i] != q[j]
  }

  ghost predicate Below(q: seq<nat>, n: nat) {
    forall x :: x in q ==> x < n
  }

  // q without its first occurrence of x; q itself when x is not in it.
  function Del(q: seq<nat>, x: nat): (r: seq<nat>)
    ensures forall y :: y in r ==> y in q
  {
    if q == [] then []
    else if q[0] == x then q[1..]
    else [q[0]] + Del(q[1..], x)
  }

  // getFirstEntry
  function First(q: seq<nat>): (x: nat)
    requires q != []
    ensures x in q
  {
    q[0]
  }

  function Last(q: seq<nat>): (x: nat)
    requires q != []
    ensures x in q
  {
    q[|q| - 1]
  }

  function Front(q: seq<nat>): (r: seq<nat>)
    requires q != []
    ensures |r| == |q| - 1
    ensures forall x :: x in r ==> x in q
  {
    q[..|q| - 1]
  }

  // What accept does to a family of lists: x leaves whichever list holds it
  // and becomes the last element of list k.
  function Accept(ls: seq<seq<nat>>, k: nat, x: nat): (r: seq<seq<nat>>)
    requires k < |ls|
  {
    DelAll(ls, x)[k := Del(ls[k], x) + [x]]
  }

  function DelAll(ls: seq<seq<nat>>, x: nat): (r: seq<seq<nat>>) {
    seq(|ls|, j requires 0 <= j < |ls| => Del(ls[j], x))
  }

  // Pairwise disjoint lists without repetitions.
  ghost predicate Disjoint(ls: seq<seq<nat>>) {
    && (forall k {:trigger NoDup(ls[k])} :: 0 <= k < |ls| ==> NoDup(ls[k]))
    && (forall k, l {:trigger Apart(ls[k], ls[l])} :: 0 <= k < |ls| && 0 <= l < |ls| && k != l ==> Apart(ls[k], ls[l]))
  }

  ghost predicate Apart(p: seq<nat>, q: seq<nat>) {
    forall x :: x in p ==> x !in q
  }

  lemma {:induction false} DelAbsent(q: seq<nat>, x: nat)
    requires x !in q
    ensures Del(q, x) == q
  {
    if q != [] {
      DelAbsent(q[1..], x);
    }
  }

  lemma {:induction false} DelAt(q: seq<nat>, k: nat)
    requires NoDup(q) && k < |q|
    ensures Del(q, q[k]) == q[..k] + q[k + 1..]
  {
    if k > 0 {
      DelAt(q[1..], k - 1);
      assert q[1..][k - 1] == q[k];
      assert q[1..][..k - 1] == q[1..k];
      assert q[1..][k..] == q[k + 1..];
      assert [q[0]] + q[1..k] == q[..k];
    }
  }

  // Removal keeps everything else, in order and without repetition.
  lemma {:induction false} DelMembers(q: seq<nat>, x: nat)
    requires NoDup(q)
    ensures NoDup(Del(q, x))
    ensures forall y :: y in Del(q, x) <==> y in q && y != x
  {
    if x in q {
      var k :| 0 <= k < |q| && q[k] == x;
      DelAt(q, k);
      forall y ensures y in Del(q, x) <==> y in q && y != x {
        if y in q && y != x {
          var j :| 0 <= j < |q| && q[j] == y;
          assert y == if j < k then (q[..k] + q[k + 1..])[j] else (q[..k] + q[k + 1..])[j - 1];
        }
      }
    } else {
      DelAbsent(q, x);
    }
  }

  lemma DelAllMembers(ls: seq<seq<nat>>, x: nat)
    requires Disjoint(ls)
    ensures Disjoint(DelAll(ls, x))
    ensures forall j, y :: 0 <= j < |ls| ==> (y in DelAll(ls, x)[j] <==> y in ls[j] && y != x)
  {
    forall j | 0 <= j < |ls|
      ensures NoDup(DelAll(ls, x)[j])
      ensures forall y :: y in DelAll(ls, x)[j] <==> y in ls[j] && y != x
    {
      assert NoDup(ls[j]);
      DelMembers(ls[j], x);
    }
    forall k, l | 0 <= k < |ls| && 0 <= l < |ls| && k != l ensures Apart(DelAll(ls, x)[k], DelAll(ls, x)[l]) {
      assert Apart(ls[k], ls[l]);
    }
  }

  lemma DelAllAt(ls: seq<seq<nat>>, k: nat, i: nat)
    requires Disjoint(ls) && k < |ls| && i < |ls[k]|
    ensures DelAll(ls, ls[k][i]) == ls[k := ls[k][..i] + ls[k][i + 1..]]
  {
    var x := ls[k][i];
    assert NoDup(ls[k]);
    DelAt(ls[k], i);
    forall l | 0 <= l < |ls| && l != k ensures DelAll(ls, x)[l] == ls[l] {
      assert Apart(ls[k], ls[l]);
      DelAbsent(ls[l], x);
    }
  }

  lemma AppendMembers(ls: seq<seq<nat>>, k: nat, x: nat)
    requires Disjoint(ls) && k < |ls| && forall j :: 0 <= j < |ls| ==> x !in ls[j]
    ensures Disjoint(ls[k := ls[k] + [x]])
    ensures forall j, y :: 0 <= j < |ls| ==> (y in ls[k := ls[k] + [x]][j] <==> y in ls[j] || (y == x && j == k))
  {
    var a := ls[k := ls[k] + [x]];
    forall i | 0 <= i < |ls| ensures NoDup(a[i]) { assert NoDup(ls[i]); }
    forall i, j | 0 <= i < |ls| && 0 <= j < |ls| && i != j ensures Apart(a[i], a[j]) {
      assert Apart(ls[i], ls[j]) && Apart(ls[j], ls[i]);
    }
  }

  // accept moves x to list k and moves nothing else.
  lemma AcceptMembers(ls: seq<seq<nat>>, k: nat, x: nat)
    requires Disjoint(ls) && k < |ls|
    ensures Disjoint(Accept(ls, k, x))
    ensures forall j, y :: 0 <= j < |ls| ==>
              (y in Accept(ls, k, x)[j] <==> if y == x then j == k else y in ls[j])
  {
    DelAllMembers(ls, x);
    AppendMembers(DelAll(ls, x), k, x);
  }

  // Only the list that held x and the target change.
  lemma AcceptOthers(ls: seq<seq<nat>>, k: nat, x: nat, j: nat)
    requires k < |ls| && j < |ls| && x !in ls[j]
    ensures Accept(ls, k, x)[j] == if j == k then ls[j] + [x] else ls[j]
  {
    DelAbsent(ls[j], x);
  }

  // q without the elements of gone, in order.
  function Without(q: seq<nat>, gone: set<nat>): (r: seq<nat>)
    ensures forall x :: x in r <==> x in q && x !in gone
  {
    if q == [] then []
    else
      var r := Without(Front(q), gone);
      assert q == Front(q) + [Last(q)];
      if Last(q) in gone then r else r + [Last(q)]
  }

  lemma {:induction false} WithoutNothing(q: seq<nat>, gone: set<nat>)
    requires forall x :: x in q ==> x !in gone
    ensures Without(q, gone) == q
  {
    if q != [] {
      WithoutNothing(Front(q), gone);
      assert q == Front(q) + [Last(q)];
    }
  }

  lemma {:induction false} DelAppend(q: seq<nat>, y: nat, x: nat)
    ensures Del(q + [y], x) == if x in q then Del(q, x) + [y] else if x == y then q else q + [y]
  {
    if q != [] {
      DelAppend(q[1..], y, x);
      assert (q + [y])[1..] == q[1..] + [y];
      assert q[0] != x ==> [q[0]] + (Del(q[1..], x) + [y]) == [q[0]] + Del(q[1..], x) + [y];
      assert [q[0]] + q[1..] == q && [q[0]] + (q[1..] + [y]) == q + [y];
    }
  }

  // Removing one more element.
  lemma {:induction false} DelWithout(q: seq<nat>, gone: set<nat>, x: nat)
    requires NoDup(q)
    ensures Del(Without(q, gone), x) == Without(q, gone + {x})
  {
    if q != [] {
      var y := Last(q);
      assert q == Front(q) + [y] && y !in Front(q) && NoDup(Front(q));
      DelWithout(Front(q), gone, x);
      DelAppend(Without(Front(q), gone), y, x);
      if x !in Without(Front(q), gone) { DelAbsent(Without(Front(q), gone), x); }
    }
  }

  // An empty list that is not the target stays empty.
  lemma AcceptEmpty(ls: seq<seq<nat>>, k: nat, j: nat, x: nat)
    requires k < |ls| && j < |ls| && k != j
    ensures ls[j] == [] ==> Accept(ls, k, x)[j] == []
  {
  }

  // Distinct numbers below n are at most n.
  lemma {:induction false} Pigeonhole(q: seq<nat>, n: nat)
    requires NoDup(q) && Below(q, n)
    ensures |q| <= n
  {
    if n == 0 {
      assert q != [] ==> First(q) < n;
    } else if n - 1 in q {
      DelMembers(q, n - 1);
      var k :| 0 <= k < |q| && q[k] == n - 1;
      DelAt(q, k);
      Pigeonhole(Del(q, n - 1), n - 1);
    } else {
      Pigeonhole(q, n - 1);
    }
  }

  lemma {:induction false} DelMid(a: seq<nat>, x: nat, b: seq<nat>)
    requires x !in a
    ensures Del(a + [x] + b, x) == a + b
  {
    var q := a + [x] + b;
    if a != [] {
      assert q[0] == a[0] && q[1..] == a[1..] + [x] + b;
      DelMid(a[1..], x, b);
    } else {
      assert q[0] == x && q[1..] == b;
    }
  }

  lemma ApartEmpty(p: seq<nat>, q: seq<nat>)
    requires Apart(p, q) && forall x :: x in p ==> x in q
    ensures p == []
  {
    if p != [] { var x := First(p); }
  }
}
