// The supervision tick: a traversal of the Normal list that moves the node it is visiting.

module SupTraversal {
  import opened Wrappers
  import opened Queues
  import opened SupModel
  import opened SupInv
  import opened SupSteps

  // The live, or the other, records of q in order.
  function Select(recs: seq<Rec>, q: seq<nat>, live: bool): (r: seq<nat>)
    requires Below(q, |recs|)
    ensures forall i :: i in r <==> i in q && IsLive(recs[i]) == live
  {
    if q == [] then []
    else
      var r := Select(recs, Front(q), live);
      assert q == Front(q) + [Last(q)];
      if IsLive(recs[Last(q)]) == live then r + [Last(q)] else r
  }

  // What a supervision tick makes of a Normal record.
  function Supervised(v: Rec, needKill: bool): Rec {
    if IsLive(v) then v.(nExp := 0, nReal := 0) else if needKill then Killed(v) else v
  }

  // The tick after q of q + rest has been visited.
  ghost predicate Visited(s: Sup, q: seq<nat>, rest: seq<nat>, s': Sup)
    requires Fits(s) && Fits(s') && SameConfig(s, s') && Below(q, |s.recs|)
  {
    && s'.lists[NORMAL] == (if s.needKill then Select(s.recs, q, true) else q) + rest
    && s'.lists[KILLING] == s.lists[KILLING] + (if s.needKill then Select(s.recs, q, false) else [])
    && s'.lists[POOL] == s.lists[POOL] && s'.lists[EXITING] == s.lists[EXITING]
    && (forall i :: 0 <= i < |s.recs| ==>
          s'.recs[i] == if i in q then Supervised(s.recs[i], s.needKill) else s.recs[i])
    && (s'.killTimer <==> s.killTimer || (s.needKill && s.lists[KILLING] == [] && Select(s.recs, q, false) != []))
    && s' == s.(recs := s'.recs, lists := s'.lists, killTimer := s'.killTimer)
  }

  // Visiting the records of q one by one does to all of them what it should, although every killed
  // record leaves the list being traversed.
  lemma {:induction false} SuperviseAllVisits(s: Sup, q: seq<nat>, rest: seq<nat>)
    requires Core(s) && s.lists[NORMAL] == q + rest
    ensures Below(q, |s.recs|) && Visited(s, q, rest, SuperviseAll(s, q))
  {
    NormalPrefix(s, q, rest);
    if q == [] {
      assert s.lists[NORMAL] == rest;
    } else {
      assert q + rest == Front(q) + ([Last(q)] + rest);
      SuperviseAllVisits(s, Front(q), [Last(q)] + rest);
      VisitLast(s, q, rest, SuperviseAll(s, Front(q)), SuperviseAll(s, q));
    }
  }

  lemma VisitLast(s: Sup, q: seq<nat>, rest: seq<nat>, s1: Sup, s': Sup)
    requires Core(s) && s.lists[NORMAL] == q + rest && q != [] && Below(q, |s.recs|)
    requires s1 == SuperviseAll(s, Front(q)) && s' == SuperviseAll(s, q) && Visited(s, Front(q), [Last(q)] + rest, s1)
    ensures Visited(s, q, rest, s')
  {
    NormalPrefix(s, q, rest);
    assert Core(s1) by { SuperviseAllKeeps(s, Front(q)); }
    SuperviseAllNext(s, q);
    VisitNext(s, q, rest, s1);
  }

  lemma SuperviseAllNext(s: Sup, q: seq<nat>)
    requires Fits(s) && Below(q, |s.recs|) && q != []
    ensures SuperviseAll(s, q) == Supervise(SuperviseAll(s, Front(q)), Last(q))
  {
  }

  lemma NormalPrefix(s: Sup, q: seq<nat>, rest: seq<nat>)
    requires Core(s) && s.lists[NORMAL] == q + rest
    ensures NoDup(q) && forall i :: i in q ==> i < |s.recs| && s.recs[i].state == Normal
  {
    assert NoDup(s.lists[NORMAL]);
    assert forall i :: 0 <= i < |q| ==> q[i] == s.lists[NORMAL][i];
    forall i | i in q ensures i < |s.recs| && s.recs[i].state == Normal {
      assert i in s.lists[NORMAL];
      InOneList(s, i, NORMAL);
    }
  }

  // The visit of the last record of q.
  lemma VisitNext(s: Sup, q: seq<nat>, rest: seq<nat>, s1: Sup)
    requires Fits(s) && q != [] && Below(q, |s.recs|) && NoDup(q) && SameConfig(s, s1)
    requires Core(s1) && s.recs[Last(q)].state == Normal
    requires Visited(s, Front(q), [Last(q)] + rest, s1)
    ensures Visited(s, q, rest, Supervise(s1, Last(q)))
  {
    assert q == Front(q) + [Last(q)] && Last(q) !in Front(q);
    assert s1.recs[Last(q)] == s.recs[Last(q)];
    if !IsLive(s.recs[Last(q)]) && s.needKill {
      KillLists(s1, Last(q), Select(s.recs, Front(q), true), rest);
      VisitDead(s, q, rest, s1);
    } else {
      VisitKept(s, q, rest, s1);
    }
  }

  lemma VisitKept(s: Sup, q: seq<nat>, rest: seq<nat>, s1: Sup)
    requires Fits(s) && Fits(s1) && q != [] && Below(q, |s.recs|) && SameConfig(s, s1)
    requires q == Front(q) + [Last(q)] && Last(q) !in Front(q)
    requires Visited(s, Front(q), [Last(q)] + rest, s1)
    requires IsLive(s.recs[Last(q)]) || !s.needKill
    ensures Visited(s, q, rest, Supervise(s1, Last(q)))
  {
    assert s1.recs[Last(q)] == s.recs[Last(q)];
    SuperviseFacts(s1, Last(q));
    KeptVisited(s, q, rest, s1, Supervise(s1, Last(q)));
  }

  lemma SuperviseFacts(s: Sup, r: nat)
    requires Fits(s) && r < |s.recs|
    ensures IsLive(s.recs[r]) || !s.needKill ==>
              Supervise(s, r) == s.(recs := s.recs[r := Supervised(s.recs[r], s.needKill)])
    ensures !IsLive(s.recs[r]) ==> Supervise(s, r) == Kill(s, r)
  {
  }

  lemma KeptVisited(s: Sup, q: seq<nat>, rest: seq<nat>, s1: Sup, s': Sup)
    requires Fits(s) && Fits(s1) && q != [] && Below(q, |s.recs|) && SameConfig(s, s1)
    requires q == Front(q) + [Last(q)] && Last(q) !in Front(q)
    requires Visited(s, Front(q), [Last(q)] + rest, s1)
    requires IsLive(s.recs[Last(q)]) || !s.needKill
    requires Fits(s') && s' == s1.(recs := s1.recs[Last(q) := Supervised(s.recs[Last(q)], s.needKill)])
    ensures Visited(s, q, rest, s')
  {
    var x := Last(q);
    assert Front(q) + ([x] + rest) == q + rest;
    assert Select(s.recs, Front(q), true) + ([x] + rest) == Select(s.recs, Front(q), true) + [x] + rest;
  }

  lemma VisitDead(s: Sup, q: seq<nat>, rest: seq<nat>, s1: Sup)
    requires Fits(s) && Fits(s1) && q != [] && Below(q, |s.recs|) && SameConfig(s, s1)
    requires q == Front(q) + [Last(q)] && Last(q) !in Front(q)
    requires Visited(s, Front(q), [Last(q)] + rest, s1)
    requires !IsLive(s.recs[Last(q)]) && s.needKill
    requires Kill(s1, Last(q)).lists ==
               [s1.lists[POOL], Select(s.recs, Front(q), true) + rest, s1.lists[EXITING], s1.lists[KILLING] + [Last(q)]]
    ensures Visited(s, q, rest, Supervise(s1, Last(q)))
  {
    var x, s' := Last(q), Kill(s1, Last(q));
    assert s1.recs[x] == s.recs[x];
    assert s'.recs == s1.recs[x := Killed(s.recs[x])];
    assert s'.lists[KILLING] == s.lists[KILLING] + (Select(s.recs, Front(q), false) + [x]);
  }

  lemma KillLists(s: Sup, x: nat, a: seq<nat>, rest: seq<nat>)
    requires Core(s) && x < |s.recs| && s.recs[x].state == Normal && s.needKill
    requires s.lists[NORMAL] == a + ([x] + rest) && x !in a
    ensures Kill(s, x).lists == [s.lists[POOL], a + rest, s.lists[EXITING], s.lists[KILLING] + [x]]
  {
    assert a + ([x] + rest) == a + [x] + rest;
    DelMid(a, x, rest);
    forall k | 0 <= k < 4 && k != NORMAL ensures Del(s.lists[k], x) == s.lists[k] {
      if x in s.lists[k] { InOneList(s, x, k); }
      DelAbsent(s.lists[k], x);
    }
  }

  // One supervision tick: every Normal record is visited exactly once. The live ones stay, in order,
  // with their counters zeroed; the others follow the old Killing list, in order.
  lemma CheckLiveStateVisits(s: Sup)
    requires Core(s)
    ensures Below(s.lists[NORMAL], |s.recs|)
    ensures Visited(s, s.lists[NORMAL], [], CheckLiveState(s))
  {
    assert s.lists[NORMAL] == s.lists[NORMAL] + [];
    SuperviseAllVisits(s, s.lists[NORMAL], []);
  }
}
