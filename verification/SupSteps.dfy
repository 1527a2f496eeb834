// Every handler of the supervisor keeps the invariants.

module SupSteps {
  import opened Wrappers
  import opened Queues
  import opened Registry
  import opened SupModel
  import opened SupInv

  // What a manager's invariants depend on.
  ghost predicate SameFor(s: Sup, s': Sup, m: nat)
    requires Fits(s) && Fits(s') && SameConfig(s, s') && m < |s.mngs|
  {
    && s'.mngs[m] == s.mngs[m]
    && (m in s'.queue <==> m in s.queue)
    && (s.mngs[m].child.Some? ==> s'.recs[s.mngs[m].child.value].state == s.recs[s.mngs[m].child.value].state)
    && (Dynamic(s, m) ==> s'.drv.slots[m].card == s.drv.slots[m].card)
  }

  // All managers other than n keep their invariants, and so does n by hypothesis.
  lemma Frame(s: Sup, s': Sup, n: nat)
    requires Fits(s) && Fits(s') && SameConfig(s, s')
    requires forall m {:trigger MngBasic(s, m)} :: 0 <= m < |s.mngs| ==> MngBasic(s, m)
    requires forall m {:trigger SameFor(s, s', m)} :: 0 <= m < |s.mngs| && m != n ==> SameFor(s, s', m)
    requires n < |s.mngs| ==> MngBasic(s', n)
    ensures forall m {:trigger MngBasic(s', m)} :: 0 <= m < |s.mngs| ==> MngBasic(s', m)
    ensures Agrees(s) && (n < |s.mngs| ==> MngDriver(s', n)) ==> Agrees(s')
  {
    forall m | 0 <= m < |s.mngs|
      ensures MngBasic(s', m)
      ensures Agrees(s) && (n < |s.mngs| ==> MngDriver(s', n)) ==> MngDriver(s', m)
    {
      if m != n {
        assert SameFor(s, s', m) && MngBasic(s, m);
        assert Agrees(s) ==> MngDriver(s, m);
      }
    }
  }

  // Record r belongs to manager n, so no other manager notices what happens to the two.
  lemma OthersSame(s: Sup, s': Sup, n: nat, r: nat)
    requires Fits(s) && Fits(s') && SameConfig(s, s') && n < |s.mngs| && r < |s.recs| && s.recs[r].parent == Some(n)
    requires forall m {:trigger LinkOk(s, m)} :: 0 <= m < |s.mngs| ==> LinkOk(s, m)
    requires s'.queue == s.queue && s'.drv == s.drv
    requires s'.mngs == s.mngs[n := s'.mngs[n]] && s'.recs == s.recs[r := s'.recs[r]]
    ensures forall m {:trigger SameFor(s, s', m)} :: 0 <= m < |s.mngs| && m != n ==> SameFor(s, s', m)
  {
    forall m | 0 <= m < |s.mngs| && m != n ensures SameFor(s, s', m) { assert LinkOk(s, m); }
  }

  // ---------- signals ----------

  lemma KillFacts(s: Sup, r: nat)
    requires Fits(s) && r < |s.recs|
    ensures Kill(s, r) == if !s.needKill then s
                          else s.(recs := s.recs[r := Killed(s.recs[r])], lists := Accept(s.lists, KILLING, r),
                                  killTimer := s.killTimer || s.lists[KILLING] == [])
  {
  }

  function Killed(v: Rec): Rec { v.(state := Killing, nExp := 0, nReal := 0, sent := v.sent + [SigKill]) }

  lemma KillKeeps(s: Sup, r: nat)
    requires Core(s) && r < |s.recs| && s.recs[r].state in {Normal, Exiting}
    ensures Core(Kill(s, r)) && Pids(Kill(s, r).recs) == Pids(s.recs)
    ensures Agrees(s) ==> Agrees(Kill(s, r))
  {
    KillFacts(s, r);
    if s.needKill {
      assert RecOk(s, r);
      var s', n := Kill(s, r), s.recs[r].parent.value;
      assert MngBasic(s, n) && (Agrees(s) ==> MngDriver(s, n));
      AdvanceRecs(s, s', r);
      AcceptEmpty(s.lists, KILLING, EXITING, r);
      OthersSame(s, s', n, r);
      Frame(s, s', n);
    }
  }

  lemma ClrKeeps(s: Sup, r: nat)
    requires Core(s) && r < |s.recs| && s.recs[r].state == Normal
    ensures Core(ClrTimes(s, r)) && Pids(ClrTimes(s, r).recs) == Pids(s.recs)
    ensures Agrees(s) ==> Agrees(ClrTimes(s, r))
  {
    forall i | 0 <= i < |s.recs| ensures 0 <= s.recs[i].nExp && 0 <= s.recs[i].nReal { assert RecOk(s, i); }
    CountRecs(s, ClrTimes(s, r));
    Frame(s, ClrTimes(s, r), |s.mngs|);
  }

  lemma SuperviseKeeps(s: Sup, r: nat)
    requires Core(s) && r < |s.recs| && s.recs[r].state == Normal
    ensures var s' := Supervise(s, r);
            && Core(s') && Pids(s'.recs) == Pids(s.recs) && (Agrees(s) ==> Agrees(s'))
            && forall i :: 0 <= i < |s.recs| && i != r ==> s'.recs[i] == s.recs[i]
  {
    if IsLive(s.recs[r]) { ClrKeeps(s, r); } else { KillKeeps(s, r); }
  }

  lemma {:induction false} SuperviseAllKeeps(s: Sup, q: seq<nat>)
    requires Core(s) && NoDup(q) && forall i :: i in q ==> i < |s.recs| && s.recs[i].state == Normal
    ensures var s' := SuperviseAll(s, q);
            && Core(s') && Pids(s'.recs) == Pids(s.recs) && (Agrees(s) ==> Agrees(s'))
            && forall i :: 0 <= i < |s.recs| && i !in q ==> s'.recs[i] == s.recs[i]
  {
    if q != [] {
      SuperviseAllKeeps(s, Front(q));
      SuperviseKeeps(SuperviseAll(s, Front(q)), Last(q));
    }
  }

  lemma CheckLiveStateKeeps(s: Sup)
    requires Core(s)
    ensures var s' := CheckLiveState(s);
            Core(s') && Pids(s'.recs) == Pids(s.recs) && (Agrees(s) ==> Agrees(s'))
  {
    assert NoDup(s.lists[NORMAL]);
    forall i | i in s.lists[NORMAL] ensures i < |s.recs| && s.recs[i].state == Normal { InOneList(s, i, NORMAL); }
    SuperviseAllKeeps(s, s.lists[NORMAL]);
  }

  lemma HelloKeeps(s: Sup)
    requires Core(s)
    ensures var s' := Hello4Live(s);
            Core(s') && Pids(s'.recs) == Pids(s.recs) && (Agrees(s) ==> Agrees(s'))
  {
    var s' := Hello4Live(s);
    forall i | 0 <= i < |s.recs|
      ensures s'.recs[i] == s.recs[i].(nExp := s'.recs[i].nExp, nReal := s'.recs[i].nReal)
      ensures s.recs[i].state != Normal ==> s'.recs[i] == s.recs[i]
      ensures 0 <= s'.recs[i].nExp && 0 <= s'.recs[i].nReal
    {
      assert RecOk(s, i);
      if i in s.lists[NORMAL] { InOneList(s, i, NORMAL); }
    }
    CountRecs(s, s');
    Frame(s, s', |s.mngs|);
  }

  lemma AckKeeps(s: Sup, pid: int)
    requires Core(s)
    ensures var s' := UpdateLiveState(s, pid);
            Core(s') && Pids(s'.recs) == Pids(s.recs) && (Agrees(s) ==> Agrees(s'))
  {
    var o := FindObj(s.recs, s.lists[NORMAL], pid);
    if o.Some? {
      InOneList(s, o.value, NORMAL);
      forall i | 0 <= i < |s.recs| ensures 0 <= s.recs[i].nExp && 0 <= s.recs[i].nReal { assert RecOk(s, i); }
      CountRecs(s, UpdateLiveState(s, pid));
      Frame(s, UpdateLiveState(s, pid), |s.mngs|);
    }
  }

  lemma TermTimeoutCases(s: Sup)
    requires Fits(s)
    ensures var s1 := if s.lists[EXITING] == [] then s else Kill(s, First(s.lists[EXITING]));
            CheckTermTimeout(s) == if s1.lists[EXITING] == [] then s1.(termTimer := false) else s1
  {
  }

  lemma TermTimeoutKeeps(s: Sup)
    requires Core(s)
    ensures var s' := CheckTermTimeout(s);
            Core(s') && Pids(s'.recs) == Pids(s.recs) && (Agrees(s) ==> Agrees(s'))
  {
    var s1 := if s.lists[EXITING] == [] then s else Kill(s, First(s.lists[EXITING]));
    if s.lists[EXITING] != [] {
      InOneList(s, First(s.lists[EXITING]), EXITING);
      KillKeeps(s, First(s.lists[EXITING]));
    }
    TimerKeeps(s1, CheckTermTimeout(s));
  }

  // Switching timers does not concern records or managers.
  lemma TimerKeeps(s: Sup, s': Sup)
    requires Core(s)
    requires s' == s.(startTimer := s'.startTimer, termTimer := s'.termTimer, killTimer := s'.killTimer)
    requires Fits(s') && TimersOk(s')
    ensures Core(s') && (Agrees(s) ==> Agrees(s'))
  {
    forall i | 0 <= i < |s.recs| ensures RecOk(s', i) { assert RecOk(s, i); }
    forall m | 0 <= m < |s.mngs| ensures LinkOk(s', m) { assert LinkOk(s, m); }
    Frame(s, s', |s.mngs|);
  }

  // ---------- ioctls ----------

  // Records keep their invariants when neither they nor the links to them change.
  lemma SameRecs(s: Sup, s': Sup)
    requires Fits(s) && Fits(s') && RecsOk(s) && SameConfig(s, s')
    requires s'.recs == s.recs && s'.lists == s.lists
    requires forall m {:trigger s'.mngs[m]} :: 0 <= m < |s.mngs| ==> s'.mngs[m].child == s.mngs[m].child
    ensures RecsOk(s')
  {
    forall i | 0 <= i < |s.recs| ensures RecOk(s', i) { assert RecOk(s, i); }
    forall m | 0 <= m < |s.mngs| ensures LinkOk(s', m) { assert LinkOk(s, m); }
  }

  lemma AlternateAppend(io: seq<IoCall>, c: IoCall)
    requires Alternate(io) && c.before == CardAfter(io)
    requires c.card == ETINDEV_NULL <==> c.before != ETINDEV_NULL
    ensures Alternate(io + [c]) && CardAfter(io + [c]) == c.card
  {
  }

  // The ioctl of slot m touches the driver's slot m and manager m's record of ioctls, nothing else.
  lemma OnOffLineFrame(s: Sup, m: nat, card: int)
    requires Fits(s) && Dynamic(s, m)
    ensures var s' := OnOffLine(s, m, card).0;
            && s' == s.(drv := s'.drv, mngs := s'.mngs)
            && s'.mngs == s.mngs[m := s.mngs[m].(io := s.mngs[m].io + [IoCall(card, s.drv.slots[m].card)])]
            && s'.drv == s.drv.(slots := s'.drv.slots)
            && forall d :: 0 <= d < |s.drv.slots| && d != m ==> s'.drv.slots[d] == s.drv.slots[d]
  {
  }

  // The online ioctl for a slot succeeds: no driver is loaded for the card, or its callback succeeds.
  predicate OnlineSucceeds(s: Sup, d: nat, card: int)
    requires Fits(s) && Dynamic(s, d) && 0 <= card < |s.drv.types|
  {
    s.drv.types[card].cbOnline ==> s.drv.cbRet[d] >= 0
  }

  // Taking the slot of a manager off line always succeeds; the device file is not one of a slot cared for.
  lemma OffLineFacts(s: Sup, m: nat)
    requires Fits(s) && Dynamic(s, m) && m != s.self
    ensures var (s', ret) := OnOffLine(s, m, ETINDEV_NULL);
            ret == 0 && s'.drv.slots[m].card == ETINDEV_NULL && s'.drv.types == s.drv.types
  {
  }

  // Bringing an empty slot on line succeeds or leaves it empty.
  lemma OnLineFacts(s: Sup, m: nat, card: int)
    requires Fits(s) && Dynamic(s, m) && m != s.self && 0 <= card < |s.drv.types| && s.drv.slots[m].card == ETINDEV_NULL
    ensures var (s', ret) := OnOffLine(s, m, card);
            && (ret >= 0 <==> OnlineSucceeds(s, m, card))
            && s'.drv.slots[m].card == if OnlineSucceeds(s, m, card) then card else ETINDEV_NULL
  {
  }

  // What Restart comes to when m is not the device's own slot: s1 is the state with the slot off line,
  // s2 the state after the online call.
  lemma RestartCases(s: Sup, m: nat)
    requires Fits(s) && Dynamic(s, m) && m != s.self && !s.exitFlag && ETINDEV_NULL <= s.mngs[m].card < |s.drv.types|
    ensures var c, s1 := s.mngs[m].card, OnOffLine(s, m, ETINDEV_NULL).0;
            Restart(s, m) == if c == ETINDEV_NULL then s1
                             else if OnlineSucceeds(s, m, c) then AddIn2Start(OnOffLine(s1, m, c).0, m)
                             else OnOffLine(s1, m, c).0
  {
    OffLineFacts(s, m);
    OnOffLineFrame(s, m, ETINDEV_NULL);
    if s.mngs[m].card != ETINDEV_NULL { OnLineFacts(OnOffLine(s, m, ETINDEV_NULL).0, m, s.mngs[m].card); }
  }

  // ---------- a child is gone ----------

  // The state between the release and the end of subStop: everything is in order but manager m,
  // which is neither attached nor queued.
  ghost predicate Detached(s: Sup, m: nat) {
    && Fits(s) && m < |s.mngs|
    && |s.recs| == |s.mngs| && s.self !in s.care && !s.exitFlag
    && RecsOk(s) && NoDup(s.queue) && TimersOk(s)
    && s.mngs[m].child.None? && m !in s.queue
    && forall n {:trigger MngBasic(s, n)} :: 0 <= n < |s.mngs| && n != m ==> MngBasic(s, n)
  }

  lemma ReleaseDetaches(s: Sup, m: nat)
    requires Core(s) && m < |s.mngs| && s.mngs[m].child.Some?
    requires s.recs[s.mngs[m].child.value].pid !in s.alive
    ensures var r := s.mngs[m].child.value;
            && s.recs[r].parent == Some(m) && Busy(s.recs[r])
            && var s' := Release(s, r).0;
            && Release(s, r).1 == 0
            && Detached(s', m)
            && s'.mngs == s.mngs[m := s.mngs[m].(child := None)]
            && forall n {:trigger SameFor(s, s', n)} :: 0 <= n < |s.mngs| && n != m ==> SameFor(s, s', n)
  {
    var r := s.mngs[m].child.value;
    assert LinkOk(s, m) && RecOk(s, r) && MngBasic(s, m);
    var s' := Release(s, r).0;
    ReleaseRecs(s, r);
    assert forall k :: 1 <= k < 4 && s.lists[k] == [] ==> s'.lists[k] == [];
    forall n | 0 <= n < |s.mngs| && n != m ensures SameFor(s, s', n) && MngBasic(s', n) {
      assert LinkOk(s, n) && MngBasic(s, n);
    }
  }

  ghost predicate AgreesBut(s: Sup, m: nat)
    requires Fits(s)
  {
    forall n {:trigger MngDriver(s, n)} :: 0 <= n < |s.mngs| && n != m ==> MngDriver(s, n)
  }

  lemma OthersAgree(s: Sup, s': Sup, m: nat)
    requires Fits(s) && Fits(s') && SameConfig(s, s') && Agrees(s)
    requires forall n {:trigger SameFor(s, s', n)} :: 0 <= n < |s.mngs| && n != m ==> SameFor(s, s', n)
    ensures AgreesBut(s', m)
  {
    forall n | 0 <= n < |s.mngs| && n != m ensures MngDriver(s', n) { assert SameFor(s, s', n) && MngDriver(s, n); }
  }

  lemma RequeueKeeps(s: Sup, m: nat)
    requires Detached(s, m)
    requires MngBasic(AddIn2Start(s, m), m)
    ensures Core(AddIn2Start(s, m))
    ensures AgreesBut(s, m) ==> AgreesBut(AddIn2Start(s, m), m)
  {
    var s' := AddIn2Start(s, m);
    SameRecs(s, s');
    forall n | 0 <= n < |s.mngs| && n != m ensures MngBasic(s', n) && (AgreesBut(s, m) ==> MngDriver(s', n)) {
      assert SameFor(s, s', n) && MngBasic(s, n);
      assert AgreesBut(s, m) ==> MngDriver(s, n);
    }
  }

  lemma OnOffLineKeeps(s: Sup, m: nat, card: int)
    requires Detached(s, m) && Dynamic(s, m)
    ensures var s' := OnOffLine(s, m, card).0;
            Detached(s', m) && (AgreesBut(s, m) ==> AgreesBut(s', m))
  {
    var s' := OnOffLine(s, m, card).0;
    OnOffLineFrame(s, m, card);
    SameRecs(s, s');
    forall n | 0 <= n < |s.mngs| && n != m ensures MngBasic(s', n) && (AgreesBut(s, m) ==> MngDriver(s', n)) {
      assert SameFor(s, s', n) && MngBasic(s, n);
      assert AgreesBut(s, m) ==> MngDriver(s, n);
    }
  }

  // Records, children and the driver's answers are the same in both states.
  ghost predicate RecordsAsIn(s: Sup, s': Sup) {
    && s'.recs == s.recs && s'.lists == s.lists && s'.alive == s.alive && s'.zombies == s.zombies
    && s'.drv.cbRet == s.drv.cbRet && s'.faulted == s.faulted && s.queue <= s'.queue
  }

  // subStop of a dynamic manager after the release keeps the basic invariants.
  lemma RestartKeeps(s: Sup, m: nat)
    requires Detached(s, m) && Dynamic(s, m)
    requires ETINDEV_NULL <= s.mngs[m].card < |s.drv.types| && m in s.care && FilterOk(s.mngs[m])
    ensures Core(Restart(s, m))
    ensures AgreesBut(s, m) ==> AgreesBut(Restart(s, m), m)
    ensures RecordsAsIn(s, Restart(s, m))
  {
    var c, s1 := s.mngs[m].card, OnOffLine(s, m, ETINDEV_NULL).0;
    RestartCases(s, m);
    OnOffLineKeeps(s, m, ETINDEV_NULL);
    OnOffLineFrame(s, m, ETINDEV_NULL);
    if c == ETINDEV_NULL {
      DetachedKeeps(s1, m);
    } else {
      var s2 := OnOffLine(s1, m, c).0;
      OnOffLineKeeps(s1, m, c);
      OnOffLineFrame(s1, m, c);
      if OnlineSucceeds(s, m, c) { RequeueKeeps(s2, m); } else { DetachedKeeps(s2, m); }
    }
  }

  // A dynamic manager may stay detached.
  lemma DetachedKeeps(s: Sup, m: nat)
    requires Detached(s, m) && Dynamic(s, m)
    requires ETINDEV_NULL <= s.mngs[m].card < |s.drv.types| && m in s.care && FilterOk(s.mngs[m])
    ensures Core(s)
  {
    assert MngBasic(s, m);
  }

  // The manager agrees with the driver afterwards exactly if there is no card to bring back on line
  // or that succeeds. Otherwise it has a card, and is neither attached nor queued.
  lemma RestartAgreesIff(s: Sup, m: nat)
    requires Detached(s, m) && Dynamic(s, m)
    requires ETINDEV_NULL <= s.mngs[m].card < |s.drv.types| && m in s.care
    requires s.drv.slots[m].card != ETINDEV_NULL && Alternate(s.mngs[m].io)
    requires s.drv.slots[m].card == CardAfter(s.mngs[m].io)
    ensures MngDriver(Restart(s, m), m) <==> s.mngs[m].card == ETINDEV_NULL || OnlineSucceeds(s, m, s.mngs[m].card)
    ensures !MngDriver(Restart(s, m), m) ==>
              && Restart(s, m).mngs[m].card != ETINDEV_NULL
              && Restart(s, m).mngs[m].child.None? && m !in Restart(s, m).queue
  {
    var c, s1 := s.mngs[m].card, OnOffLine(s, m, ETINDEV_NULL).0;
    RestartCases(s, m);
    OffLineFacts(s, m);
    OnOffLineFrame(s, m, ETINDEV_NULL);
    AlternateAppend(s.mngs[m].io, IoCall(ETINDEV_NULL, s.drv.slots[m].card));
    if c != ETINDEV_NULL {
      OnLineFacts(s1, m, c);
      OnOffLineFrame(s1, m, c);
      AlternateAppend(s1.mngs[m].io, IoCall(c, ETINDEV_NULL));
    }
  }

  lemma ReleaseFacts(s: Sup, r: nat)
    requires Fits(s) && r < |s.recs| && s.recs[r].parent.Some?
    ensures var v, m := s.recs[r], s.recs[r].parent.value;
            Release(s, r) == if v.pid in s.alive then (s, -1)
                             else (s.(zombies := s.zombies - {v.pid}, recs := s.recs[r := FREE_REC],
                                      mngs := s.mngs[m := s.mngs[m].(child := None)],
                                      lists := Accept(s.lists, POOL, r)), 0)
  {
  }

  lemma StopCases(s: Sup, m: nat)
    requires Fits(s) && m < |s.mngs| && s.mngs[m].child.Some? && s.recs[s.mngs[m].child.value].parent.Some?
    ensures var (s1, ret) := Release(s, s.mngs[m].child.value);
            Stop(s, m) == if ret < 0 then s1 else if Dynamic(s, m) then Restart(s1, m) else AddIn2Start(s1, m)
  {
  }

  // CPrcMngInfo::stop of an attached manager. While the child lives nothing happens; otherwise the
  // record goes back to the pool.
  lemma StopKeeps(s: Sup, m: nat)
    requires Core(s) && m < |s.mngs| && s.mngs[m].child.Some?
    ensures Core(Stop(s, m))
    ensures Agrees(s) && CallbacksOk(s) ==> Agrees(Stop(s, m))
    ensures var r, s' := s.mngs[m].child.value, Stop(s, m);
            if s.recs[r].pid in s.alive then s' == s
            else
              && s'.recs == s.recs[r := FREE_REC] && Pids(s'.recs) == Pids(s.recs) - {s.recs[r].pid}
              && s'.alive == s.alive && s'.zombies == s.zombies - {s.recs[r].pid} && s'.drv.cbRet == s.drv.cbRet
              && s'.lists == Accept(s.lists, POOL, r) && s.queue <= s'.queue && s'.faulted == s.faulted
  {
    var r := s.mngs[m].child.value;
    assert LinkOk(s, m) && RecOk(s, r) && MngBasic(s, m);
    if s.recs[r].pid !in s.alive {
      var s1 := Release(s, r).0;
      ReleaseDetaches(s, m);
      ReleaseRecs(s, r);
      if Agrees(s) {
        assert MngDriver(s, m);
        OthersAgree(s, s1, m);
      }
      StopEnds(s, s1, m);
      assert Stop(s, m) == if Dynamic(s, m) then Restart(s1, m) else AddIn2Start(s1, m);
    }
  }

  lemma StopEnds(s: Sup, s1: Sup, m: nat)
    requires Core(s) && m < |s.mngs| && s.mngs[m].child.Some? && MngBasic(s, m)
    requires Detached(s1, m) && SameConfig(s, s1) && s1.drv == s.drv
    requires s1.mngs == s.mngs[m := s.mngs[m].(child := None)]
    ensures var s' := if Dynamic(s, m) then Restart(s1, m) else AddIn2Start(s1, m);
            && Core(s') && (AgreesBut(s1, m) && MngDriver(s, m) && CallbacksOk(s) ==> Agrees(s'))
            && RecordsAsIn(s1, s')
  {
    if Dynamic(s, m) {
      RestartKeeps(s1, m);
      if MngDriver(s, m) { RestartAgreesIff(s1, m); }
    } else {
      RequeueKeeps(s1, m);
    }
  }

  ghost predicate KilledKept(s: Sup, s': Sup)
    requires Fits(s) && Fits(s')
  {
    && Core(s') && (Agrees(s) && CallbacksOk(s) ==> Agrees(s'))
    && s'.drv.cbRet == s.drv.cbRet && s'.faulted == s.faulted
    && (ChildrenOk(s) ==> ChildrenOk(s'))
  }

  lemma KillTimeoutKeeps(s: Sup)
    requires Core(s)
    ensures KilledKept(s, CheckKillTimeout(s))
  {
    KillTimeoutCases(s);
    if s.lists[KILLING] == [] {
      TimerKeeps(s, CheckKillTimeout(s));
    } else {
      var s1 := StopParent(s, First(s.lists[KILLING]));
      StopFirstKeeps(s, First(s.lists[KILLING]));
      TimerKeeps(s1, CheckKillTimeout(s));
    }
  }

  lemma StopFirstKeeps(s: Sup, r: nat)
    requires Core(s) && r in s.lists[KILLING] && r < |s.recs|
    ensures KilledKept(s, StopParent(s, r))
  {
    InOneList(s, r, KILLING);
    assert RecOk(s, r);
    StopKeeps(s, s.recs[r].parent.value);
  }

  lemma KillTimeoutCases(s: Sup)
    requires Fits(s)
    ensures var s1 := if s.lists[KILLING] == [] then s else StopParent(s, First(s.lists[KILLING]));
            CheckKillTimeout(s) == if s1.lists[KILLING] == [] then s1.(killTimer := false) else s1
  {
  }
}
