// Conservation of children: forking, reaping, and the pool that never runs dry.

module SupChildren {
  import opened Wrappers
  import opened Queues
  import opened Registry
  import opened SupModel
  import opened SupInv
  import opened SupSteps

  // ---------- reaping ----------

  // A reaped pid is always recognised: its record is busy, and sBuryChld finds it.
  lemma FindBusyFinds(s: Sup, pid: int)
    requires Core(s) && pid in Pids(s.recs)
    ensures FindBusy(s, pid).Some?
    ensures var r := FindBusy(s, pid).value; Busy(s.recs[r]) && s.recs[r].pid == pid
  {
    var i :| 0 <= i < |s.recs| && Busy(s.recs[i]) && s.recs[i].pid == pid;
    assert RecOk(s, i);
    assert FindBusy(s, pid).Some?;
    var r := FindBusy(s, pid).value;
    if r in s.lists[KILLING] { InOneList(s, r, KILLING); }
    else if r in s.lists[EXITING] { InOneList(s, r, EXITING); }
    else { InOneList(s, r, NORMAL); }
  }

  // One round of sBuryChld: the zombie's record returns to the pool, by the path on which the
  // second waitpid reports ECHILD.
  lemma BuryKeeps(s: Sup, pid: int)
    requires Inv(s) && pid in s.zombies
    ensures var s' := Bury(s, pid);
            && Inv(s') && s'.zombies == s.zombies - {pid} && s'.alive == s.alive
            && s'.drv.cbRet == s.drv.cbRet
            && (Agrees(s) && CallbacksOk(s) ==> Agrees(s'))
            && pid !in Pids(s'.recs) && s.queue <= s'.queue
    ensures FindBusy(s, pid).Some? && Bury(s, pid).recs == s.recs[FindBusy(s, pid).value := FREE_REC]
    ensures Bury(s, pid).lists == Accept(s.lists, POOL, FindBusy(s, pid).value)
  {
    var s1 := s.(zombies := s.zombies - {pid});
    ReapedCore(s, s1);
    FindBusyFinds(s1, pid);
    var r := FindBusy(s1, pid).value;
    assert FindBusy(s, pid) == Some(r);
    assert RecOk(s1, r);
    StopKeeps(s1, s1.recs[r].parent.value);
  }

  lemma ReapedCore(s: Sup, s1: Sup)
    requires Core(s) && s1 == s.(zombies := s1.zombies, alive := s1.alive)
    ensures Core(s1) && (Agrees(s) ==> Agrees(s1))
  {
    SameRecs(s, s1);
    Frame(s, s1, |s.mngs|);
  }

  ghost predicate Distinct(pids: seq<int>) {
    forall i, j :: 0 <= i < j < |pids| ==> pids[i] != pids[j]
  }

  lemma SplitLast(pids: seq<int>)
    requires Distinct(pids) && pids != []
    ensures var n := |pids| - 1;
            && Distinct(pids[..n]) && pids[n] !in pids[..n] && pids[n] in pids
            && forall p :: p in pids <==> p in pids[..n] || p == pids[n]
  {
  }

  // The state s' after the zombies pids of s have been reaped.
  ghost predicate Buried(s: Sup, s': Sup, pids: seq<int>)
    requires Fits(s)
  {
    && Inv(s') && SameConfig(s, s') && s'.drv.cbRet == s.drv.cbRet && s'.alive == s.alive
    && (Agrees(s) && CallbacksOk(s) ==> Agrees(s'))
    && (forall p :: p in s'.zombies <==> p in s.zombies && p !in pids)
    && s.queue <= s'.queue
  }

  // The loop of sBuryChld over any order in which waitpid hands out the zombies.
  lemma {:induction false} BuryAllKeeps(s: Sup, pids: seq<int>)
    requires Inv(s) && Distinct(pids) && forall p :: p in pids ==> p in s.zombies
    ensures Buried(s, BuryAll(s, pids), pids)
  {
    if pids != [] {
      var n := |pids| - 1;
      var s1 := BuryAll(s, pids[..n]);
      SplitLast(pids);
      BuryAllKeeps(s, pids[..n]);
      BuryNext(s, s1, pids);
      assert BuryAll(s, pids) == Bury(s1, pids[n]);
    }
  }

  lemma BuryNext(s: Sup, s1: Sup, pids: seq<int>)
    requires Fits(s) && pids != [] && Buried(s, s1, pids[..|pids| - 1])
    requires pids[|pids| - 1] !in pids[..|pids| - 1] && pids[|pids| - 1] in s.zombies
    requires forall p :: p in pids <==> p in pids[..|pids| - 1] || p == pids[|pids| - 1]
    ensures Buried(s, Bury(s1, pids[|pids| - 1]), pids)
  {
    BuryKeeps(s1, pids[|pids| - 1]);
  }

  // ---------- the pool ----------

  // There are as many records as managers and links are one to one, so a manager without a process
  // always finds a free record.
  lemma PoolNeverDry(s: Sup, m: nat)
    requires Core(s) && m < |s.mngs| && s.mngs[m].child.None?
    ensures s.lists[POOL] != []
  {
    if s.lists[POOL] == [] {
      forall i | 0 <= i < |s.recs| ensures RecOk(s, i) && Busy(s.recs[i]) { assert RecOk(s, i); }
      var parents := seq(|s.recs|, i requires 0 <= i < |s.recs| =>
        if s.recs[i].parent.Some? then s.recs[i].parent.value else 0);
      forall i | 0 <= i < |s.recs| ensures s.mngs[parents[i]].child == Some(i) { assert RecOk(s, i); }
      assert NoDup(parents + [m]) && Below(parents + [m], |s.mngs|);
      Pigeonhole(parents + [m], |s.mngs|);
    }
  }

  // ---------- starting ----------

  lemma StartCases(s: Sup, m: nat, fork: int)
    requires Fits(s) && m < |s.mngs| && s.mngs[m].child.None?
    ensures var (s1, ret) := Capture(s, m, fork);
            Start(s, m, fork) == if Dynamic(s, m) && s.mngs[m].card == ETINDEV_NULL then DelFrom2Start(s, m)
                                 else if ret < 0 then s1 else DelFrom2Start(s1, m)
  {
  }

  lemma StartTickCases(s: Sup, fork: int)
    requires Fits(s)
    ensures var s1 := if s.queue == [] then s else Start(s, First(s.queue), fork);
            CheckNeedStart(s, fork) == if s1.queue == [] then s1.(startTimer := false) else s1
  {
  }

  // A start moves at most the first record of the pool.
  lemma StartLists(s: Sup, m: nat, fork: int)
    requires Fits(s) && m < |s.mngs|
    ensures var ls := Start(s, m, fork).lists;
            ls == s.lists || (s.lists[POOL] != [] && ls == Accept(s.lists, NORMAL, First(s.lists[POOL])))
  {
    if s.mngs[m].child.None? {
      StartCases(s, m, fork);
      CaptureLists(s, m, fork);
    }
  }

  lemma CaptureLists(s: Sup, m: nat, fork: int)
    requires Fits(s) && m < |s.mngs|
    ensures var ls := Capture(s, m, fork).0.lists;
            ls == s.lists || (s.lists[POOL] != [] && ls == Accept(s.lists, NORMAL, First(s.lists[POOL])))
  {
  }

  // What a start tick does to queue and children.
  ghost predicate Ticked(s: Sup, s': Sup, fork: int)
    requires Fits(s)
  {
    && Inv(s') && s'.drv == s.drv && (Agrees(s) ==> Agrees(s')) && s'.zombies == s.zombies
    && s'.alive == (if s.queue != [] && fork > 0 then s.alive + {fork} else s.alive)
    && s'.queue == (if s.queue != [] && fork > 0 then s.queue[1..] else s.queue)
  }

  // A start tick: the first queued manager gets a process if fork succeeds.
  lemma StartKeeps(s: Sup, fork: int)
    requires Inv(s) && fork != 0 && (fork > 0 ==> fork !in Children(s))
    ensures Ticked(s, CheckNeedStart(s, fork), fork)
    ensures s.queue != [] && fork > 0 ==> CheckNeedStart(s, fork).mngs[First(s.queue)].child.Some?
    ensures s.queue != [] && fork < 0 ==> CheckNeedStart(s, fork) == s
  {
    StartTickCases(s, fork);
    if s.queue == [] {
      TickEnds(s, s, CheckNeedStart(s, fork), fork);
    } else {
      HeadStarts(s, First(s.queue), fork);
      TickEnds(s, Start(s, First(s.queue), fork), CheckNeedStart(s, fork), fork);
    }
  }

  lemma TickEnds(s: Sup, s1: Sup, s': Sup, fork: int)
    requires Fits(s) && Ticked(s, s1, fork) && Fits(s') && s' == if s1.queue == [] then s1.(startTimer := false) else s1
    ensures Ticked(s, s', fork)
  {
    TimerKeeps(s1, s');
  }

  lemma HeadStarts(s: Sup, m: nat, fork: int)
    requires Inv(s) && s.queue != [] && m == First(s.queue) && fork != 0 && (fork > 0 ==> fork !in Children(s))
    ensures m < |s.mngs| && Ticked(s, Start(s, m, fork), fork)
    ensures if fork > 0 then Start(s, m, fork).mngs[m].child.Some? else Start(s, m, fork) == s
  {
    assert MngBasic(s, m);
    PoolNeverDry(s, m);
    if fork > 0 { StartedOk(s, m, fork); } else { FailedForkChangesNothing(s, m, fork); }
  }

  lemma StartedOk(s: Sup, m: nat, fork: int)
    requires Inv(s) && s.queue != [] && m == First(s.queue) && s.lists[POOL] != []
    requires fork > 0 && fork !in Children(s) && MngBasic(s, m)
    ensures var s' := Start(s, m, fork);
            && Core(s') && !s'.faulted && Pids(s'.recs) == Pids(s.recs) + {fork} && s'.queue == s.queue[1..]
            && s'.mngs[m].child.Some?
            && s'.alive == s.alive + {fork} && s'.zombies == s.zombies && s'.drv == s.drv
            && (Agrees(s) ==> Agrees(s'))
  {
    var s1, s' := Capture(s, m, fork).0, Start(s, m, fork);
    CaptureRecs(s, m, fork);
    var r := First(s.lists[POOL]);
    DelMembers(s.queue, m);
    assert s'.queue == s.queue[1..];
    SameRecs(s1, s');
    forall n | 0 <= n < |s.mngs| && n != m ensures SameFor(s, s', n) {
      assert LinkOk(s, n);
    }
    assert forall k :: 2 <= k < 4 && s.lists[k] == [] ==> s'.lists[k] == [];
    assert Agrees(s) ==> MngDriver(s, m);
    Frame(s, s', m);
  }

  // A failed fork leaves everything as it was.
  lemma FailedForkChangesNothing(s: Sup, m: nat, fork: int)
    requires Core(s) && m in s.queue && fork < 0
    ensures Start(s, m, fork) == s
  {
    assert MngBasic(s, m);
    assert LinkOk(s, m);
  }
}
