// The invariants of the supervisor before shutdown.

module SupInv {
  import opened Wrappers
  import opened Queues
  import opened Registry
  import opened SupModel

  // ---------- records ----------

  predicate Busy(v: Rec) { v.state != Null }

  // Signals go TERM then KILL, or KILL at once, and the state says how far they got.
  predicate Escalated(v: Rec) {
    match v.state
    case Null => v.sent == []
    case Normal => v.sent == []
    case Exiting => v.sent == [SigTerm]
    case Killing => v.sent == [SigTerm, SigKill] || v.sent == [SigKill]
  }

  ghost predicate RecOk(s: Sup, i: nat)
    requires Fits(s) && i < |s.recs|
  {
    var v := s.recs[i];
    && i in s.lists[ListOf(v.state)]
    && (v.state == Null ==> v == FREE_REC)
    && (v.state != Null ==> v.pid > 0 && v.parent.Some? && s.mngs[v.parent.value].child == Some(i))
    && 0 <= v.nExp && 0 <= v.nReal && (v.state != Normal ==> v.nExp == 0 && v.nReal == 0)
    && Escalated(v)
  }

  ghost predicate LinkOk(s: Sup, m: nat)
    requires Fits(s) && m < |s.mngs|
  {
    s.mngs[m].child.Some? ==> s.recs[s.mngs[m].child.value].parent == Some(m)
  }

  ghost predicate DistinctPids(recs: seq<Rec>) {
    forall i, j {:trigger recs[i].pid, recs[j].pid} ::
      0 <= i < j < |recs| && Busy(recs[i]) && Busy(recs[j]) ==> recs[i].pid != recs[j].pid
  }

  // Each record is in the list of its state and in no other; records and managers point at each other.
  ghost predicate RecsOk(s: Sup)
    requires Fits(s)
  {
    && Disjoint(s.lists)
    && (forall i {:trigger RecOk(s, i)} :: 0 <= i < |s.recs| ==> RecOk(s, i))
    && (forall m {:trigger LinkOk(s, m)} :: 0 <= m < |s.mngs| ==> LinkOk(s, m))
    && DistinctPids(s.recs)
  }

  // ---------- children ----------

  function Pids(recs: seq<Rec>): set<int> {
    set i | 0 <= i < |recs| && Busy(recs[i]) :: recs[i].pid
  }

  function Children(s: Sup): set<int> { s.alive + s.zombies }

  ghost predicate ChildrenOk(s: Sup) {
    Pids(s.recs) == Children(s) && s.alive !! s.zombies
  }

  // ---------- managers ----------

  // How often in a row the last report was seen.
  function RunLen(xs: seq<int>): nat {
    if |xs| <= 1 then |xs|
    else if xs[|xs| - 1] == xs[|xs| - 2] then RunLen(xs[..|xs| - 1]) + 1
    else 1
  }

  // The filter fields encode the reports since the last card left.
  ghost predicate FilterOk(g: Mng) {
    g.card == ETINDEV_NULL ==>
      if g.seen == [] || g.seen[|g.seen| - 1] == ETINDEV_NULL then g.cardNew == ETINDEV_NULL
      else g.cardNew == g.seen[|g.seen| - 1] && g.cnt == RunLen(g.seen) - 1
  }

  // Ioctls alternate, on line first; each finds the driver in the state it supposes.
  ghost predicate Alternate(io: seq<IoCall>) {
    forall k {:trigger io[k]} :: 0 <= k < |io| ==>
      if k % 2 == 0 then io[k].card != ETINDEV_NULL && io[k].before == ETINDEV_NULL
      else io[k].card == ETINDEV_NULL && io[k].before == io[k - 1].card
  }

  // The card the driver has after the ioctls io.
  function CardAfter(io: seq<IoCall>): int {
    if |io| % 2 == 1 then io[|io| - 1].card else ETINDEV_NULL
  }

  // What holds of a manager whatever the driver's callbacks return.
  ghost predicate MngBasic(s: Sup, m: nat)
    requires Fits(s) && m < |s.mngs|
  {
    var g := s.mngs[m];
    && (g.child.Some? ==> m !in s.queue)
    && if !Dynamic(s, m) then
         && (g.child.None? ==> m in s.queue)
         && (g.child.Some? ==> s.recs[g.child.value].state != Exiting)
       else
         && (g.card == ETINDEV_NULL ==> m !in s.queue)
         && (g.child.Some? && s.recs[g.child.value].state == Normal ==> g.card != ETINDEV_NULL)
         && (g.child.Some? && s.recs[g.child.value].state == Exiting ==> g.card == ETINDEV_NULL)
         && ETINDEV_NULL <= g.card < |s.drv.types|
         && (g.card != ETINDEV_NULL || g.child.Some? ==> m in s.care)
         && FilterOk(g)
  }

  // Agreement with the driver about a slot the program cares for; it needs the driver's online callbacks
  // to succeed. The other slots, among them the one the device file stands for, are the driver's own
  // business: that one is on line before the program starts.
  ghost predicate MngDriver(s: Sup, m: nat)
    requires Fits(s) && m < |s.mngs|
  {
    var g := s.mngs[m];
    Dynamic(s, m) && m in s.care ==>
      && (g.card != ETINDEV_NULL ==> m in s.queue || g.child.Some?)
      && (if g.card != ETINDEV_NULL then s.drv.slots[m].card == g.card
          else s.drv.slots[m].card != ETINDEV_NULL <==> g.child.Some?)
      && Alternate(g.io) && s.drv.slots[m].card == CardAfter(g.io)
  }

  // ---------- the whole ----------

  ghost predicate TimersOk(s: Sup)
    requires Fits(s)
  {
    && (s.queue != [] ==> s.startTimer)
    && (s.lists[EXITING] != [] ==> s.termTimer)
    && (s.lists[KILLING] != [] ==> s.killTimer)
  }

  // Everything but the accounting of children and faults.
  ghost predicate Core(s: Sup) {
    && Fits(s)
    && |s.recs| == |s.mngs| && s.self !in s.care && !s.exitFlag
    && RecsOk(s) && NoDup(s.queue) && TimersOk(s)
    && forall m {:trigger MngBasic(s, m)} :: 0 <= m < |s.mngs| ==> MngBasic(s, m)
  }

  ghost predicate Inv(s: Sup) { Core(s) && ChildrenOk(s) && !s.faulted }

  ghost predicate Agrees(s: Sup)
    requires Fits(s)
  {
    forall m {:trigger MngDriver(s, m)} :: 0 <= m < |s.mngs| ==> MngDriver(s, m)
  }

  ghost predicate CallbacksOk(s: Sup) {
    forall i {:trigger s.drv.cbRet[i]} :: 0 <= i < |s.drv.cbRet| && i in s.care ==> s.drv.cbRet[i] >= 0
  }

  // ---------- pids of busy records ----------

  lemma PidsStart(recs: seq<Rec>, r: nat, v: Rec)
    requires r < |recs| && !Busy(recs[r]) && Busy(v) && v.pid !in Pids(recs) && DistinctPids(recs)
    ensures Pids(recs[r := v]) == Pids(recs) + {v.pid} && DistinctPids(recs[r := v])
  {
    var a := recs[r := v];
    forall p ensures p in Pids(a) <==> p in Pids(recs) + {v.pid} {
      if p in Pids(recs) { var i :| 0 <= i < |recs| && Busy(recs[i]) && recs[i].pid == p; assert a[i].pid == p; }
      if p == v.pid { assert a[r].pid == p; }
    }
  }

  lemma PidsStop(recs: seq<Rec>, r: nat, v: Rec)
    requires r < |recs| && Busy(recs[r]) && !Busy(v) && DistinctPids(recs)
    ensures Pids(recs[r := v]) == Pids(recs) - {recs[r].pid} && DistinctPids(recs[r := v])
  {
    var a := recs[r := v];
    forall p ensures p in Pids(a) <==> p in Pids(recs) - {recs[r].pid} {
      if p in Pids(recs) && p != recs[r].pid {
        var i :| 0 <= i < |recs| && Busy(recs[i]) && recs[i].pid == p;
        assert a[i].pid == p;
      }
    }
  }

  lemma PidsSame(recs: seq<Rec>, recs': seq<Rec>)
    requires |recs'| == |recs| && DistinctPids(recs)
    requires forall i {:trigger recs'[i]} :: 0 <= i < |recs| ==>
               Busy(recs'[i]) == Busy(recs[i]) && recs'[i].pid == recs[i].pid
    ensures Pids(recs') == Pids(recs) && DistinctPids(recs')
  {
    assert forall i :: 0 <= i < |recs| ==> recs'[i].pid == recs[i].pid;
    forall p ensures p in Pids(recs') <==> p in Pids(recs) {
      if p in Pids(recs) { var i :| 0 <= i < |recs| && Busy(recs[i]) && recs[i].pid == p; assert recs'[i].pid == p; }
    }
  }

  // ---------- records under the primitive operations ----------

  // A busy record goes on to another busy state, keeping pid and manager.
  lemma AdvanceRecs(s: Sup, s': Sup, r: nat)
    requires Fits(s) && Fits(s') && RecsOk(s) && r < |s.recs| && Busy(s.recs[r])
    requires s'.mngs == s.mngs && |s'.recs| == |s.recs| && s'.recs == s.recs[r := s'.recs[r]]
    requires s'.recs[r].pid == s.recs[r].pid && s'.recs[r].parent == s.recs[r].parent
    requires s'.recs[r].state in {Exiting, Killing} && Escalated(s'.recs[r]) && s'.recs[r].nExp == s'.recs[r].nReal == 0
    requires s'.lists == Accept(s.lists, ListOf(s'.recs[r].state), r)
    ensures RecsOk(s') && Pids(s'.recs) == Pids(s.recs)
  {
    AcceptMembers(s.lists, ListOf(s'.recs[r].state), r);
    PidsSame(s.recs, s'.recs);
    assert RecOk(s, r);
    forall i | 0 <= i < |s.recs| ensures RecOk(s', i) { assert RecOk(s, i); }
    forall m | 0 <= m < |s.mngs| ensures LinkOk(s', m) { assert LinkOk(s, m); }
  }

  // Counters of Normal records change, nothing else.
  lemma CountRecs(s: Sup, s': Sup)
    requires Fits(s) && Fits(s') && RecsOk(s)
    requires s'.mngs == s.mngs && s'.lists == s.lists && |s'.recs| == |s.recs|
    requires forall i {:trigger s'.recs[i]} :: 0 <= i < |s.recs| ==>
               && s'.recs[i] == s.recs[i].(nExp := s'.recs[i].nExp, nReal := s'.recs[i].nReal)
               && (s.recs[i].state != Normal ==> s'.recs[i] == s.recs[i])
               && 0 <= s'.recs[i].nExp && 0 <= s'.recs[i].nReal
    ensures RecsOk(s') && Pids(s'.recs) == Pids(s.recs)
  {
    PidsSame(s.recs, s'.recs);
    forall i | 0 <= i < |s.recs| ensures RecOk(s', i) { assert RecOk(s, i); }
    forall m | 0 <= m < |s.mngs| ensures LinkOk(s', m) { assert LinkOk(s, m); }
  }

  lemma CaptureRecs(s: Sup, m: nat, fork: int)
    requires Fits(s) && RecsOk(s) && m < |s.mngs| && s.mngs[m].child.None?
    requires s.lists[POOL] != [] && fork > 0 && fork !in Pids(s.recs)
    ensures var s' := Capture(s, m, fork).0;
            RecsOk(s') && Pids(s'.recs) == Pids(s.recs) + {fork}
    ensures s.recs[First(s.lists[POOL])] == FREE_REC
  {
    var r, s' := First(s.lists[POOL]), Capture(s, m, fork).0;
    assert RecOk(s, r);
    assert s.recs[r].state == Null by { InOneList(s, r, POOL); }
    AcceptMembers(s.lists, NORMAL, r);
    PidsStart(s.recs, r, s'.recs[r]);
    forall i | 0 <= i < |s.recs| ensures RecOk(s', i) { assert RecOk(s, i); }
    forall n | 0 <= n < |s.mngs| ensures LinkOk(s', n) { assert LinkOk(s, n); }
  }

  lemma InOneList(s: Sup, i: nat, k: nat)
    requires Fits(s) && RecsOk(s) && k < 4 && i in s.lists[k]
    ensures i < |s.recs| && k == ListOf(s.recs[i].state)
  {
    assert RecOk(s, i);
    assert k != ListOf(s.recs[i].state) ==> Apart(s.lists[k], s.lists[ListOf(s.recs[i].state)]);
  }

  lemma ReleaseRecs(s: Sup, r: nat)
    requires Fits(s) && RecsOk(s) && r < |s.recs| && Busy(s.recs[r]) && s.recs[r].parent.Some?
    requires s.recs[r].pid !in s.alive
    ensures var s' := Release(s, r).0;
            RecsOk(s') && Pids(s'.recs) == Pids(s.recs) - {s.recs[r].pid}
  {
    var s' := Release(s, r).0;
    assert RecOk(s, r);
    AcceptMembers(s.lists, POOL, r);
    PidsStop(s.recs, r, FREE_REC);
    forall i | 0 <= i < |s.recs| ensures RecOk(s', i) { assert RecOk(s, i); }
    forall n | 0 <= n < |s.mngs| ensures LinkOk(s', n) { assert LinkOk(s, n); }
  }
}
