// The intrusive circular doubly linked lists of pdm/include/cplist.h, on real next/prev pointers.

module CList {
  import opened Queues

  // CListHeader: embedded in every record and manager, and in every list head.
  // `id` plays the role of the source's downcast: it says which object embeds the header.
  class CListHeader {
    const id: nat
    var next: CListHeader?
    var prev: CListHeader?

    constructor (id: nat)
      ensures this.id == id && next == this && prev == this
    {
      this.id := id;
      next := this;
      prev := this;
    }
  }

  // A family of lists over one population of nodes; each head is a node of its own ring.
  class Rings {
    const heads: seq<CListHeader>
    const nodes: seq<CListHeader>
    ghost const Repr: set<object>
    ghost var lists: seq<seq<nat>>  // which nodes each list holds, in order

    constructor (heads: seq<CListHeader>, nodes: seq<CListHeader>)
      requires forall i {:trigger nodes[i]} :: 0 <= i < |nodes| ==> nodes[i].id == i
      requires forall k {:trigger heads[k]} :: 0 <= k < |heads| ==> heads[k].id == |nodes| + k
      requires forall k {:trigger heads[k]} :: 0 <= k < |heads| ==> heads[k].next == heads[k].prev == heads[k]
      ensures this.heads == heads && this.nodes == nodes && Valid() && lists == seq(|heads|, _ => [])
      ensures Repr == {this} + (set h: object | h in heads) + (set h: object | h in nodes)
    {
      this.heads, this.nodes := heads, nodes;
      Repr := {this} + (set h: object | h in heads) + (set h: object | h in nodes);
      lists := seq(|heads|, _ => []);
    }

    // The contents ls are possible: disjoint lists of known nodes, and ids identify headers.
    ghost predicate Listing(ls: seq<seq<nat>>) {
      && |ls| == |heads| && this in Repr
      && (forall i {:trigger nodes[i]} :: 0 <= i < |nodes| ==> nodes[i] in Repr)
      && (forall k {:trigger heads[k]} :: 0 <= k < |heads| ==> heads[k] in Repr)
      && (forall i {:trigger nodes[i]} :: 0 <= i < |nodes| ==> nodes[i].id == i)
      && (forall k {:trigger heads[k]} :: 0 <= k < |heads| ==> heads[k].id == |nodes| + k)
      && (forall k, x :: 0 <= k < |ls| && x in ls[k] ==> x < |nodes|)
      && Disjoint(ls)
    }

    // The header at position j of ring k; positions -1 and |ls[k]| are the head.
    ghost function At(ls: seq<seq<nat>>, k: nat, j: int): (h: CListHeader)
      requires Listing(ls) && k < |heads| && -1 <= j <= |ls[k]|
      ensures h in Repr
      ensures 0 <= j < |ls[k]| ==> ls[k][j] < |nodes| && h == nodes[ls[k][j]]
    {
      if 0 <= j < |ls[k]| then assert ls[k][j] in ls[k]; nodes[ls[k][j]] else heads[k]
    }

    // Every ring is closed in both directions.
    ghost predicate Linked(ls: seq<seq<nat>>)
      requires Listing(ls)
      reads Repr
    {
      && (forall k, j {:trigger At(ls, k, j).next} ::
            0 <= k < |heads| && -1 <= j < |ls[k]| ==> At(ls, k, j).next == At(ls, k, j + 1))
      && (forall k, j {:trigger At(ls, k, j).prev} ::
            0 <= k < |heads| && 0 <= j <= |ls[k]| ==> At(ls, k, j).prev == At(ls, k, j - 1))
    }

    ghost predicate Valid()
      reads this, Repr
      ensures Valid() ==> this in Repr
    {
      Listing(lists) && Linked(lists)
    }

    ghost predicate Holds(x: CListHeader)
      reads this
    {
      x.id < |nodes| && nodes[x.id] == x && exists k :: 0 <= k < |lists| && x.id in lists[k]
    }

    ghost predicate Free(x: CListHeader)
      reads this
    {
      x.id < |nodes| && nodes[x.id] == x && forall k :: 0 <= k < |lists| ==> x.id !in lists[k]
    }

    // A position is known by what follows it.
    lemma AtSuffix(ls: seq<seq<nat>>, ls': seq<seq<nat>>, k: nat, p: nat, p': nat)
      requires Listing(ls) && Listing(ls') && k < |heads| && p <= |ls[k]| && p' <= |ls'[k]|
      requires ls[k][p..] == ls'[k][p'..]
      ensures At(ls, k, p) == At(ls', k, p')
    {
    }

    // A header occupies one position of one ring.
    lemma Unique(ls: seq<seq<nat>>, k: nat, j: int)
      requires Listing(ls) && k < |heads| && -1 <= j <= |ls[k]|
      ensures forall l, i :: 0 <= l < |heads| && -1 <= i <= |ls[l]| && At(ls, l, i) == At(ls, k, j) ==>
                l == k && (i == j || ((j == -1 || j == |ls[k]|) && (i == -1 || i == |ls[k]|)))
    {
      forall l, i | 0 <= l < |heads| && -1 <= i <= |ls[l]| && At(ls, l, i) == At(ls, k, j)
        ensures l == k && (i == j || ((j == -1 || j == |ls[k]|) && (i == -1 || i == |ls[k]|)))
      {
        assert NoDup(ls[k]) && (k != l ==> Apart(ls[k], ls[l]));
        assert 0 <= j < |ls[k]| ==> ls[k][j] in ls[k];
        assert 0 <= i < |ls[l]| ==> ls[l][i] in ls[l];
      }
    }

    // Positions after taking out position i of ring k.
    lemma AtAfterDel(ls: seq<seq<nat>>, ls': seq<seq<nat>>, k: nat, i: nat, l: nat, j: int)
      requires Listing(ls) && Listing(ls') && k < |heads| && i < |ls[k]| && l < |heads| && -1 <= j <= |ls'[l]|
      requires ls' == ls[k := ls[k][..i] + ls[k][i + 1..]]
      ensures j + (if l == k && j >= i then 1 else 0) <= |ls[l]|
      ensures At(ls', l, j) == At(ls, l, if l == k && j >= i then j + 1 else j)
    {
    }

    // The ring of k bypasses its position i; everything else is linked.
    ghost predicate Bypassed(ls: seq<seq<nat>>, k: nat, i: nat)
      requires Listing(ls) && k < |heads| && i < |ls[k]|
      reads Repr
    {
      && (forall l, j {:trigger At(ls, l, j).next} :: 0 <= l < |heads| && -1 <= j < |ls[l]| && !(l == k && j == i) ==>
            At(ls, l, j).next == At(ls, l, if l == k && j == i - 1 then j + 2 else j + 1))
      && (forall l, j {:trigger At(ls, l, j).prev} :: 0 <= l < |heads| && 0 <= j <= |ls[l]| && !(l == k && j == i) ==>
            At(ls, l, j).prev == At(ls, l, if l == k && j == i + 1 then j - 2 else j - 1))
    }

    lemma BypassedIsLinked(ls: seq<seq<nat>>, ls': seq<seq<nat>>, k: nat, i: nat)
      requires Listing(ls) && Listing(ls') && k < |heads| && i < |ls[k]| && Bypassed(ls, k, i)
      requires ls' == ls[k := ls[k][..i] + ls[k][i + 1..]]
      ensures Linked(ls')
    {
      forall l, j | 0 <= l < |heads| && -1 <= j < |ls'[l]| ensures At(ls', l, j).next == At(ls', l, j + 1) {
        AtAfterDel(ls, ls', k, i, l, j);
        AtAfterDel(ls, ls', k, i, l, j + 1);
      }
      forall l, j | 0 <= l < |heads| && 0 <= j <= |ls'[l]| ensures At(ls', l, j).prev == At(ls', l, j - 1) {
        AtAfterDel(ls, ls', k, i, l, j);
        AtAfterDel(ls, ls', k, i, l, j - 1);
      }
    }

    // Following the next pointers from the head, as the traversal macros do.
    lemma NextAt(k: nat, j: int)
      requires Valid() && k < |heads| && -1 <= j <= |lists[k]|
      ensures At(lists, k, j).next == At(lists, k, if j == |lists[k]| then 0 else j + 1)
      ensures j >= 0 ==> (At(lists, k, j) == heads[k] <==> j == |lists[k]|)
    {
      assert At(lists, k, if j == |lists[k]| then -1 else j).next == At(lists, k, if j == |lists[k]| then 0 else j + 1);
      Unique(lists, k, -1);
    }

    method IsEmpty(k: nat) returns (b: bool)
      requires Valid() && k < |heads|
      ensures b <==> lists[k] == []
    {
      assert At(lists, k, -1).next == At(lists, k, 0);
      b := heads[k].next == heads[k];
      Unique(lists, k, 0);
    }

    method GetFirstEntry(k: nat) returns (x: CListHeader?)
      requires Valid() && k < |heads|
      ensures x == null <==> lists[k] == []
      ensures x != null ==> x.id == lists[k][0] && x.id < |nodes| && nodes[x.id] == x
    {
      var empty := IsEmpty(k);
      assert At(lists, k, -1).next == At(lists, k, 0);
      x := if empty then null else heads[k].next;
    }

    // sIntDel: bridge the two neighbours of x, leaving x's own pointers alone.
    method IntDel(x: CListHeader, ghost k: nat, ghost i: nat)
      requires Valid() && k < |heads| && i < |lists[k]| && At(lists, k, i) == x
      modifies Repr
      ensures lists == old(lists) && Bypassed(lists, k, i)
    {
      Unique(lists, k, i - 1);
      Unique(lists, k, i + 1);
      var pPrev, pNext := x.prev, x.next;
      assert pPrev == At(lists, k, i - 1) && pNext == At(lists, k, i + 1);
      assert forall l, j :: 0 <= l < |heads| && -1 <= j < |lists[l]| && At(lists, l, j) == pPrev ==>
        l == k && j == i - 1;
      assert forall l, j :: 0 <= l < |heads| && 0 <= j <= |lists[l]| && At(lists, l, j) == pNext ==>
        l == k && j == i + 1;
      pNext.prev := pPrev;
      pPrev.next := pNext;
      forall l, j | 0 <= l < |heads| && -1 <= j < |lists[l]| && !(l == k && j == i)
        ensures At(lists, l, j).next == At(lists, l, if l == k && j == i - 1 then j + 2 else j + 1)
      {
        assert old(At(lists, l, j).next) == At(lists, l, j + 1);
      }
      forall l, j | 0 <= l < |heads| && 0 <= j <= |lists[l]| && !(l == k && j == i)
        ensures At(lists, l, j).prev == At(lists, l, if l == k && j == i + 1 then j - 2 else j - 1)
      {
        assert old(At(lists, l, j).prev) == At(lists, l, j - 1);
      }
    }

    // Take x out of its ring; x's own pointers keep pointing into it.
    method Unlink(x: CListHeader)
      requires Valid() && Holds(x)
      modifies Repr
      ensures Valid() && Free(x)
      ensures lists == DelAll(old(lists), x.id)
    {
      ghost var ls := lists;
      ghost var k :| 0 <= k < |ls| && x.id in ls[k];
      ghost var i :| 0 <= i < |ls[k]| && ls[k][i] == x.id;
      IntDel(x, k, i);
      DelAllAt(ls, k, i);
      DelAllMembers(ls, x.id);
      lists := DelAll(ls, x.id);
      BypassedIsLinked(ls, lists, k, i);
    }

    // addTail: link a node that is in no list just before the head.
    method AddTail(k: nat, x: CListHeader)
      requires Valid() && k < |heads| && Free(x)
      modifies Repr
      ensures Valid()
      ensures lists == old(lists)[k := old(lists[k]) + [x.id]]
    {
      ghost var ls := lists;
      ghost var n := |ls[k]|;
      Unique(ls, k, n);
      Unique(ls, k, n - 1);
      var head := heads[k];
      var last := head.prev;
      assert last == At(ls, k, n).prev == At(ls, k, n - 1);
      head.prev := x;
      x.next := head;
      x.prev := last;
      last.next := x;
      assert Listing(ls[k := ls[k] + [x.id]]) by { AppendMembers(ls, k, x.id); }
      lists := lists[k := lists[k] + [x.id]];
      forall l, j | 0 <= l < |heads| && -1 <= j < |lists[l]| ensures At(lists, l, j).next == At(lists, l, j + 1) {
        if l != k || j < n - 1 {
          assert At(lists, l, j) == At(ls, l, j) && old(At(ls, l, j).next) == At(ls, l, j + 1);
        }
      }
      forall l, j | 0 <= l < |heads| && 0 <= j <= |lists[l]| ensures At(lists, l, j).prev == At(lists, l, j - 1) {
        if l != k || j < n {
          assert At(lists, l, j) == At(ls, l, j) && old(At(ls, l, j).prev) == At(ls, l, j - 1);
        }
      }
    }

    // accept: move a node from the list that holds it, possibly list k itself, to the end of list k.
    method Accept(k: nat, x: CListHeader)
      requires Valid() && k < |heads| && Holds(x)
      modifies Repr
      ensures Valid()
      ensures lists == Queues.Accept(old(lists), k, x.id)
    {
      Unlink(x);
      AddTail(k, x);
    }

    // del: take a node out of its list and clear its pointers.
    method Delete(x: CListHeader)
      requires Valid() && Holds(x)
      modifies Repr
      ensures Valid() && Free(x) && x.next == null && x.prev == null
      ensures lists == DelAll(old(lists), x.id)
    {
      Unlink(x);
      x.next := null;
      x.prev := null;
      assert forall l, j :: 0 <= l < |heads| && -1 <= j <= |lists[l]| ==> At(lists, l, j) != x;
    }
  }

  // Headers with the ids from base on, each linked to itself.
  method MakeHeaders(base: nat, n: nat) returns (hs: seq<CListHeader>)
    ensures |hs| == n && fresh(hs)
    ensures forall i {:trigger hs[i]} :: 0 <= i < n ==> hs[i].id == base + i && hs[i].next == hs[i].prev == hs[i]
  {
    hs := [];
    while |hs| < n
      invariant |hs| <= n && fresh(hs)
      invariant forall i {:trigger hs[i]} :: 0 <= i < |hs| ==> hs[i].id == base + i && hs[i].next == hs[i].prev == hs[i]
    {
      var h := new CListHeader(base + |hs|);
      hs := hs + [h];
    }
  }

  // k empty lists for n nodes.
  method MakeRings(n: nat, k: nat) returns (r: Rings)
    ensures fresh(r.Repr) && r.Valid()
    ensures |r.nodes| == n && |r.heads| == k && r.lists == seq(k, _ => [])
  {
    var nodes := MakeHeaders(0, n);
    var heads := MakeHeaders(n, k);
    r := new Rings(heads, nodes);
  }
}
