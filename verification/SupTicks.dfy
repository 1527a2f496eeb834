// What each event does, in full: every law gives the whole new state, in terms of the records, lists,
// managers and ioctls it is about.

module SupTicks {
  import opened Wrappers
  import opened Queues
  import opened Registry
  import opened SupModel
  import opened SupInv
  import opened SupSteps
  import opened SupChildren
  import opened SupCards
  import opened SupTraversal
  import opened SupRuns
  import opened SupEscalation

  // ---------- a process is gone ----------

  // The record r of a dead child has been given back: it is free, and the last of the pool. Its manager has
  // no process. A static one waits again; a dynamic one has its slot taken off line, and if it has a card,
  // that card brought on line again, and waits if the driver accepts. Nothing else has changed, timers
  // apart.
  ghost predicate Freed(s: Sup, s': Sup, r: nat)
    requires Fits(s) && r < |s.recs| && s.recs[r].parent.Some?
  {
    var m := s.recs[r].parent.value;
    var g := s.mngs[m];
    && Fits(s') && SameConfig(s, s')
    && s' == s.(recs := s'.recs, mngs := s'.mngs, lists := s'.lists, queue := s'.queue,
                zombies := s'.zombies, drv := s'.drv, startTimer := s'.startTimer)
    && s'.recs == s.recs[r := FREE_REC] && s'.zombies == s.zombies - {s.recs[r].pid}
    && (forall k :: 1 <= k < 4 ==> s'.lists[k] == Del(s.lists[k], r)) && s'.lists[POOL] == s.lists[POOL] + [r]
    && s'.mngs == s.mngs[m := g.(child := None, io := s'.mngs[m].io)]
    && if !Dynamic(s, m) then s'.queue == s.queue + [m] && s'.drv == s.drv && s'.mngs[m].io == g.io
       else if g.card < 0 then s'.queue == s.queue && TakenOff(s, s', m)
       else g.card < |s.drv.types| && TakenOffAndOn(s, s', m, g.card)
  }

  // One ioctl for slot m, which takes it off line
  ghost predicate TakenOff(s: Sup, s': Sup, m: nat)
    requires Fits(s) && m < |s.mngs| && Dynamic(s, m) && m < |s'.mngs|
  {
    && s'.mngs[m].io == s.mngs[m].io + [IoCall(ETINDEV_NULL, s.drv.slots[m].card)]
    && s'.drv == Ioctl(s.drv, s.self, m, ETINDEV_NULL).0
  }

  // Two ioctls for slot m, which take it off line and bring the card on line
  ghost predicate TakenOffAndOn(s: Sup, s': Sup, m: nat, card: int)
    requires Fits(s) && m < |s.mngs| && Dynamic(s, m) && m < |s'.mngs| && 0 <= card < |s.drv.types|
  {
    && s'.mngs[m].io == s.mngs[m].io + [IoCall(ETINDEV_NULL, s.drv.slots[m].card), IoCall(card, ETINDEV_NULL)]
    && s'.drv == Ioctl(Ioctl(s.drv, s.self, m, ETINDEV_NULL).0, s.self, m, card).0
    && s'.queue == if s.drv.types[card].cbOnline && s.drv.cbRet[m] < 0 then s.queue else s.queue + [m]
  }

  lemma StopLaw(s: Sup, m: nat)
    requires Core(s) && m < |s.mngs| && s.mngs[m].child.Some?
    ensures var r := s.mngs[m].child.value;
            && s.recs[r].parent == Some(m)
            && if s.recs[r].pid in s.alive then Stop(s, m) == s else Freed(s, Stop(s, m), r)
  {
    var r := s.mngs[m].child.value;
    assert LinkOk(s, m) && MngBasic(s, m) && RecOk(s, r);
    ReleaseFacts(s, r);
    StopCases(s, m);
    if s.recs[r].pid !in s.alive {
      var s1 := Release(s, r).0;
      Pooled(s, s1, r);
      if Dynamic(s, m) { RestartLaw(s, s1, m, r); } else { FreedStatic(s, s1, m, r); }
    }
  }

  // r leaves the busy list it is in and joins the pool.
  lemma Pooled(s: Sup, s1: Sup, r: nat)
    requires Core(s) && Fits(s1) && r < |s.recs| && s.recs[r].state != Null && s1.lists == Accept(s.lists, POOL, r)
    ensures forall k :: 1 <= k < 4 ==> s1.lists[k] == Del(s.lists[k], r)
    ensures s1.lists[POOL] == s.lists[POOL] + [r]
  {
    if r in s.lists[POOL] { InOneList(s, r, POOL); }
    DelAbsent(s.lists[POOL], r);
  }

  lemma RestartLaw(s: Sup, s1: Sup, m: nat, r: nat)
    requires Core(s) && Dynamic(s, m) && MngBasic(s, m) && Released(s, s1, m, r)
    ensures Freed(s, Restart(s1, m), r)
  {
    var c, s2 := s.mngs[m].card, OnOffLine(s1, m, ETINDEV_NULL).0;
    RestartCases(s1, m);
    OnOffLineIs(s1, m, ETINDEV_NULL);
    if c < 0 {
      FreedOff(s, s1, s2, m, r);
    } else {
      OffLineFacts(s1, m);
      OnOffLineIs(s2, m, c);
      OnOffTwice(s, s1, s2, OnOffLine(s2, m, c).0, m, c);
      FreedOn(s, s1, OnOffLine(s2, m, c).0, Restart(s1, m), m, r, c);
    }
  }

  // The record has been given back, and its manager not yet dealt with.
  ghost predicate Released(s: Sup, s1: Sup, m: nat, r: nat) {
    && Fits(s) && Fits(s1) && r < |s.recs| && m < |s.mngs| && SameConfig(s, s1)
    && s.mngs[m].child == Some(r) && s.recs[r].parent == Some(m)
    && s1 == s.(zombies := s.zombies - {s.recs[r].pid}, recs := s.recs[r := FREE_REC],
                mngs := s.mngs[m := s.mngs[m].(child := None)], lists := s1.lists)
    && (forall k :: 1 <= k < 4 ==> s1.lists[k] == Del(s.lists[k], r)) && s1.lists[POOL] == s.lists[POOL] + [r]
  }

  lemma FreedStatic(s: Sup, s1: Sup, m: nat, r: nat)
    requires Released(s, s1, m, r) && !Dynamic(s, m)
    ensures Freed(s, AddIn2Start(s1, m), r)
  {
  }

  lemma FreedOff(s: Sup, s1: Sup, s': Sup, m: nat, r: nat)
    requires Released(s, s1, m, r) && Dynamic(s, m) && s.mngs[m].card < 0 && Fits(s') && SameConfig(s1, s')
    requires s' == s1.(drv := s'.drv, mngs := s1.mngs[m := s1.mngs[m].(io := s'.mngs[m].io)]) && TakenOff(s, s', m)
    ensures Freed(s, s', r)
  {
  }

  lemma FreedOn(s: Sup, s1: Sup, s3: Sup, s': Sup, m: nat, r: nat, c: int)
    requires Released(s, s1, m, r) && Dynamic(s, m) && s.mngs[m].card == c && 0 <= c < |s.drv.types|
    requires Fits(s3) && Fits(s') && SameConfig(s1, s3) && SameConfig(s3, s')
    requires s3 == s1.(drv := s3.drv, mngs := s1.mngs[m := s1.mngs[m].(io := s3.mngs[m].io)])
    requires s3.mngs[m].io == s.mngs[m].io + [IoCall(ETINDEV_NULL, s.drv.slots[m].card), IoCall(c, ETINDEV_NULL)]
    requires s3.drv == Ioctl(Ioctl(s.drv, s.self, m, ETINDEV_NULL).0, s.self, m, c).0
    requires s' == if s.drv.types[c].cbOnline && s.drv.cbRet[m] < 0 then s3 else AddIn2Start(s3, m)
    ensures Freed(s, s', r)
  {
  }

  lemma OnOffLineIs(s: Sup, m: nat, card: int)
    requires Fits(s) && Dynamic(s, m)
    ensures OnOffLine(s, m, card).0 ==
              s.(drv := Ioctl(s.drv, s.self, m, card).0,
                 mngs := s.mngs[m := s.mngs[m].(io := s.mngs[m].io + [IoCall(card, s.drv.slots[m].card)])])
  {
  }

  lemma OnOffTwice(s: Sup, s1: Sup, s2: Sup, s3: Sup, m: nat, c: int)
    requires Fits(s) && Fits(s1) && Fits(s2) && Fits(s3) && Dynamic(s, m) && 0 <= c < |s.drv.types|
    requires SameConfig(s, s1) && SameConfig(s1, s2) && s1.drv == s.drv && s1.mngs[m].io == s.mngs[m].io
    requires s2 == s1.(drv := Ioctl(s.drv, s.self, m, ETINDEV_NULL).0,
                       mngs := s1.mngs[m := s1.mngs[m].(
                                 io := s.mngs[m].io + [IoCall(ETINDEV_NULL, s.drv.slots[m].card)])])
    requires s2.drv.slots[m].card == ETINDEV_NULL
    requires s3 == s2.(drv := Ioctl(s2.drv, s.self, m, c).0,
                       mngs := s2.mngs[m := s2.mngs[m].(io := s2.mngs[m].io + [IoCall(c, s2.drv.slots[m].card)])])
    ensures s3.mngs == s1.mngs[m := s1.mngs[m].(io := s3.mngs[m].io)]
    ensures s3.mngs[m].io == s.mngs[m].io + [IoCall(ETINDEV_NULL, s.drv.slots[m].card), IoCall(c, ETINDEV_NULL)]
    ensures s3.drv == Ioctl(Ioctl(s.drv, s.self, m, ETINDEV_NULL).0, s.self, m, c).0
  {
  }

  // ---------- the timers ----------

  // A kill tick finds no process being killed, and stops the timer; or the child of the first is still
  // alive, and nothing happens; or it is dead, and its record is given back.
  lemma KillTickLaw(s: Sup)
    requires Inv(s)
    ensures var s', q := Step(s, KillTick), s.lists[KILLING];
            if q == [] then s' == s.(killTimer := false)
            else if s.recs[q[0]].pid in s.alive then s' == s
            else
              && s.recs[q[0]].parent.Some? && Freed(s.(killTimer := s'.killTimer), s', q[0])
              && s'.lists[KILLING] == q[1..] && s.recs[q[0]].pid !in Children(s')
              && (s'.killTimer <==> s.killTimer && q[1..] != [])
  {
    KillTimeoutCases(s);
    if s.lists[KILLING] != [] {
      InOneList(s, s.lists[KILLING][0], KILLING);
      FirstStopped(s, s.lists[KILLING][0], Step(s, KillTick));
    }
  }

  lemma FirstStopped(s: Sup, r: nat, s': Sup)
    requires Inv(s) && s.lists[KILLING] != [] && r == s.lists[KILLING][0] && r < |s.recs|
    requires var s1 := StopParent(s, r); s' == if s1.lists[KILLING] == [] then s1.(killTimer := false) else s1
    ensures s.recs[r].parent.Some?
    ensures if s.recs[r].pid in s.alive then s' == s
            else
              && Freed(s.(killTimer := s'.killTimer), s', r) && s'.lists[KILLING] == s.lists[KILLING][1..]
              && s.recs[r].pid !in Children(s') && (s'.killTimer <==> s.killTimer && s.lists[KILLING][1..] != [])
  {
    InOneList(s, r, KILLING);
    assert RecOk(s, r) && LinkOk(s, s.recs[r].parent.value);
    StopLaw(s, s.recs[r].parent.value);
    if s.recs[r].pid !in s.alive {
      assert Del(s.lists[KILLING], r) == s.lists[KILLING][1..];
      FreedDisarmed(s, StopParent(s, r), s', r);
    }
  }

  lemma FreedDisarmed(s: Sup, s1: Sup, s': Sup, r: nat)
    requires Fits(s) && r < |s.recs| && s.recs[r].parent.Some? && Freed(s, s1, r)
    requires s' == s1.(killTimer := s'.killTimer)
    ensures Freed(s.(killTimer := s'.killTimer), s', r)
  {
  }

  // A term tick finds no process exiting, and stops the timer; or the first is killed if killing is
  // enabled.
  lemma TermTickLaw(s: Sup)
    requires Inv(s)
    ensures var s', q := Step(s, TermTick), s.lists[EXITING];
            if q == [] then s' == s.(termTimer := false)
            else if !s.needKill then s' == s
            else
              && s' == s.(recs := s'.recs, lists := s'.lists, termTimer := s'.termTimer, killTimer := true)
              && s'.recs == s.recs[q[0] := Killed(s.recs[q[0]])]
              && s'.lists == s.lists[EXITING := q[1..]][KILLING := s.lists[KILLING] + [q[0]]]
              && (s'.termTimer <==> s.termTimer && q[1..] != [])
  {
    var q := s.lists[EXITING];
    TermTimeoutCases(s);
    if q != [] && s.needKill {
      var r := q[0];
      InOneList(s, r, EXITING);
      KillFacts(s, r);
      MovedLists(s, EXITING, KILLING, r);
      assert Del(q, r) == q[1..];
    }
  }

  // A record moves from one list to another.
  lemma MovedLists(s: Sup, j: nat, k: nat, r: nat)
    requires Fits(s) && RecsOk(s) && j < 4 && k < 4 && j != k && r in s.lists[j]
    ensures Accept(s.lists, k, r) == s.lists[j := Del(s.lists[j], r)][k := s.lists[k] + [r]]
  {
    InOneList(s, r, j);
    forall l | 0 <= l < 4 && l != j ensures Del(s.lists[l], r) == s.lists[l] {
      if r in s.lists[l] { InOneList(s, r, l); }
      DelAbsent(s.lists[l], r);
    }
  }

  // A start tick finds nobody waiting, and stops the timer; or the fork fails, and nothing happens; or the
  // first manager waiting gets the first record of the pool, for the new child.
  lemma StartTickLaw(s: Sup, fork: int)
    requires Inv(s) && Possible(s, StartTick(fork))
    ensures var s', q, p := Step(s, StartTick(fork)), s.queue, s.lists[POOL];
            if q == [] then s' == s.(startTimer := false)
            else if fork < 0 then s' == s
            else
              && p != []
              && s' == s.(recs := s'.recs, mngs := s'.mngs, lists := s'.lists, queue := q[1..],
                          alive := s.alive + {fork}, startTimer := s'.startTimer)
              && s'.recs == s.recs[p[0] := Rec(Normal, fork, 0, 0, Some(q[0]), [])]
              && s'.mngs == s.mngs[q[0] := s.mngs[q[0]].(child := Some(p[0]))]
              && s'.lists == s.lists[POOL := p[1..]][NORMAL := s.lists[NORMAL] + [p[0]]]
              && (s'.startTimer <==> s.startTimer && q[1..] != [])
  {
    StartTickCases(s, fork);
    if s.queue != [] {
      var m := First(s.queue);
      assert MngBasic(s, m);
      PoolNeverDry(s, m);
      if fork < 0 {
        FailedForkChangesNothing(s, m, fork);
      } else {
        StartedLaw(s, m, fork);
      }
    }
  }

  lemma StartedLaw(s: Sup, m: nat, fork: int)
    requires Inv(s) && s.queue != [] && m == First(s.queue) && MngBasic(s, m) && s.lists[POOL] != [] && fork > 0
    ensures var p := s.lists[POOL];
            Start(s, m, fork) == s.(recs := s.recs[p[0] := Rec(Normal, fork, 0, 0, Some(m), [])],
                                    mngs := s.mngs[m := s.mngs[m].(child := Some(p[0]))],
                                    lists := s.lists[POOL := p[1..]][NORMAL := s.lists[NORMAL] + [p[0]]],
                                    queue := s.queue[1..], alive := s.alive + {fork})
  {
    var r := First(s.lists[POOL]);
    StartCases(s, m, fork);
    CaptureFacts(s, m, fork);
    InOneList(s, r, POOL);
    assert RecOk(s, r);
    MovedLists(s, POOL, NORMAL, r);
    assert Del(s.lists[POOL], r) == s.lists[POOL][1..] && Del(s.queue, m) == s.queue[1..];
  }

  lemma CaptureFacts(s: Sup, m: nat, fork: int)
    requires Fits(s) && m < |s.mngs| && s.lists[POOL] != [] && fork > 0
    ensures var r := First(s.lists[POOL]);
            var v := s.recs[r].(state := Normal, pid := fork, parent := Some(m), sent := []);
            Capture(s, m, fork) == (s.(recs := s.recs[r := v], mngs := s.mngs[m := s.mngs[m].(child := Some(r))],
                                       alive := s.alive + {fork}, lists := Accept(s.lists, NORMAL, r)), 0)
  {
  }

  // A hello tick makes every process that is Normal owe one more acknowledgement, and does nothing else.
  lemma HelloTickLaw(s: Sup)
    requires Inv(s)
    ensures var s' := Step(s, HelloTick);
            && s' == s.(recs := s'.recs) && |s'.recs| == |s.recs|
            && forall i :: 0 <= i < |s.recs| ==>
                 s'.recs[i] == if s.recs[i].state == Normal then s.recs[i].(nExp := s.recs[i].nExp + 1) else s.recs[i]
  {
    forall i | 0 <= i < |s.recs|
      ensures Step(s, HelloTick).recs[i] ==
                if s.recs[i].state == Normal then s.recs[i].(nExp := s.recs[i].nExp + 1) else s.recs[i]
    {
      HelloRecs(s, i);
    }
  }

  // An acknowledgement counts for the Normal process with the sender's pid, and does nothing else.
  lemma HelloAckLaw(s: Sup, pid: int)
    requires Inv(s)
    ensures var s' := Step(s, HelloAck(pid));
            && s' == s.(recs := s'.recs) && |s'.recs| == |s.recs|
            && forall i :: 0 <= i < |s.recs| ==>
                 s'.recs[i] == if s.recs[i].state == Normal && s.recs[i].pid == pid
                               then s.recs[i].(nReal := s.recs[i].nReal + 1) else s.recs[i]
  {
    AckCases(s, pid, FindObj(s.recs, s.lists[NORMAL], pid));
    forall i | 0 <= i < |s.recs|
      ensures Step(s, HelloAck(pid)).recs[i] == if s.recs[i].state == Normal && s.recs[i].pid == pid
                                                then s.recs[i].(nReal := s.recs[i].nReal + 1) else s.recs[i]
    {
      AckRecs(s, pid, i);
    }
  }

  // ---------- reaping ----------

  // One round of burying: the zombie is gone, and the record that stood for it has been given back.
  lemma BuryLaw(s: Sup, pid: int, r: nat)
    requires Inv(s) && pid in s.zombies && r < |s.recs| && Busy(s.recs[r]) && s.recs[r].pid == pid
    ensures s.recs[r].parent.Some? && Freed(s, Bury(s, pid), r)
  {
    var s1 := s.(zombies := s.zombies - {pid});
    ReapedCore(s, s1);
    FindBusyFinds(s1, pid);
    var o := FindBusy(s1, pid).value;
    if o != r { PidsDiffer(s.recs, o, r); }
    assert RecOk(s1, r);
    StopLaw(s1, s1.recs[r].parent.value);
    FreedReaped(s, s1, Bury(s, pid), r);
  }

  lemma FreedReaped(s: Sup, s1: Sup, s': Sup, r: nat)
    requires Fits(s) && Fits(s1) && r < |s.recs| && s.recs[r].parent.Some?
    requires s1 == s.(zombies := s.zombies - {s.recs[r].pid}) && Freed(s1, s', r)
    ensures Freed(s, s', r)
  {
  }

  // Whatever the order, after burying there are no zombies, every record that stood for one is free and in
  // the pool, and all other records, and the living children, are as before.
  lemma SigChldLaw(s: Sup, order: seq<int>)
    requires Inv(s) && Possible(s, SigChld(order))
    ensures var s' := Step(s, SigChld(order));
            && s'.zombies == {} && s'.alive == s.alive && |s'.recs| == |s.recs|
            && forall i :: 0 <= i < |s.recs| ==>
                 if Busy(s.recs[i]) && s.recs[i].pid in s.zombies then s'.recs[i] == FREE_REC && i in s'.lists[POOL]
                 else s'.recs[i] == s.recs[i]
  {
    BuryAllKeeps(s, order);
    var s' := Step(s, SigChld(order));
    forall i | 0 <= i < |s.recs|
      ensures if Busy(s.recs[i]) && s.recs[i].pid in s.zombies then s'.recs[i] == FREE_REC && i in s'.lists[POOL]
              else s'.recs[i] == s.recs[i]
    {
      BuryAllRecs(s, order, i);
      assert RecOk(s', i);
    }
  }

  // ---------- reports ----------

  // Only the filter fields of manager d change, and its record of reports.
  ghost predicate OnlyFilter(s: Sup, s': Sup, d: nat)
    requires d < |s.mngs|
  {
    |s'.mngs| == |s.mngs| &&
    var g, g' := s.mngs[d], s'.mngs[d];
    s' == s.(mngs := s.mngs[d := g.(cardNew := g'.cardNew, cnt := g'.cnt, seen := g'.seen)])
  }

  // The card t is accepted: one ioctl brings it on line, and, whatever the answer, the manager waits.
  ghost predicate TookCard(s: Sup, s': Sup, d: nat, t: int)
    requires Fits(s) && d < |s.mngs| && Dynamic(s, d)
  {
    var g := s.mngs[d];
    && s' == s.(mngs := s'.mngs, drv := Ioctl(s.drv, s.self, d, t).0, queue := s.queue + [d], startTimer := true)
    && s'.mngs == s.mngs[d := g.(card := t, cardNew := ETINDEV_NULL, cnt := 0, seen := g.seen + [t],
                                 io := g.io + [IoCall(t, s.drv.slots[d].card)])]
  }

  // A report is counted, or the card accepted.
  ghost predicate CountedOrTaken(s: Sup, s': Sup, d: nat, t: int)
    requires Fits(s) && d < |s.mngs| == |s'.mngs| && Dynamic(s, d)
  {
    if s'.mngs[d].card < 0 then OnlyFilter(s, s', d) else TookCard(s, s', d, t)
  }

  // That is all that happens to a slot without a card.
  lemma EmptySlotLaw(s: Sup, d: nat, t: int)
    requires Inv(s) && Dynamic(s, d) && Reportable(s, d, t) && s.mngs[d].card == ETINDEV_NULL
    ensures CountedOrTaken(s, Step(s, CardReport(d, t)), d, t)
  {
    ReportCases(s, d, t);
    if t < 0 {
      SeenLaw(s, d, t);
    } else if OnlyCounts(s.mngs[d], t) {
      FilterCardCases(s, d, t);
      CountedLaw(s, d, t);
    } else {
      FilterCardCases(s, d, t);
      AcceptedLaw(s, d, t);
    }
  }

  lemma CountedLaw(s: Sup, d: nat, t: int)
    requires Inv(s) && Dynamic(s, d)
    ensures OnlyFilter(s, SetMng(s, d, CountReport(s.mngs[d], t)), d)
  {
  }

  lemma AcceptedLaw(s: Sup, d: nat, t: int)
    requires Inv(s) && Dynamic(s, d) && 0 <= t < |s.drv.types|
    ensures TookCard(s, AddIn2Start(OnOffLine(Carded(s, d, t), d, t).0, d), d, t)
  {
    OnOffLineIs(Carded(s, d, t), d, t);
    if s.queue != [] { assert s.startTimer; }
  }

  // The card is forgotten; of manager d nothing else changes but the record of ioctls.
  ghost predicate Forgotten(s: Sup, s': Sup, d: nat)
    requires d < |s.mngs|
  {
    && |s'.mngs| == |s.mngs|
    && var g := s.mngs[d].(card := ETINDEV_NULL, cardNew := ETINDEV_NULL, seen := []);
    && s'.mngs == s.mngs[d := g.(io := s'.mngs[d].io)]
  }

  // ... with the manager waiting: it waits no longer, and one ioctl takes the slot off line.
  ghost predicate LostWaiting(s: Sup, s': Sup, d: nat)
    requires Fits(s) && d < |s.mngs| && Dynamic(s, d)
  {
    Forgotten(s, s', d) && s' == s.(mngs := s'.mngs, drv := s'.drv, queue := Del(s.queue, d)) && TakenOff(s, s', d)
  }

  // ... with a Normal process, of record r: that gets TERM and is Exiting.
  ghost predicate LostRunning(s: Sup, s': Sup, d: nat, r: nat)
    requires Fits(s) && d < |s.mngs| && r < |s.recs|
  {
    && Forgotten(s, s', d) && s'.mngs[d].io == s.mngs[d].io
    && s' == s.(mngs := s'.mngs, recs := s.recs[r := Termed(s.recs[r])], lists := s'.lists, termTimer := true)
    && s'.lists == s.lists[NORMAL := Del(s.lists[NORMAL], r)][EXITING := s.lists[EXITING] + [r]]
  }

  // ... with a process on its way out: nothing else happens.
  ghost predicate LostDying(s: Sup, s': Sup, d: nat)
    requires d < |s.mngs|
  {
    Forgotten(s, s', d) && s'.mngs[d].io == s.mngs[d].io && s' == s.(mngs := s'.mngs)
  }

  // A report of a slot with a card. The card itself: only counting starts again. Anything else: the card is
  // forgotten, and what happens besides depends on the process.
  lemma CardedSlotLaw(s: Sup, d: nat, t: int)
    requires Inv(s) && Dynamic(s, d) && Reportable(s, d, t) && s.mngs[d].card != ETINDEV_NULL && !Faults(s, d, t)
    ensures var s', o := Step(s, CardReport(d, t)), s.mngs[d].child;
            if t == s.mngs[d].card then OnlyFilter(s, s', d)
            else if o.None? then d in s.queue && LostWaiting(s, s', d)
            else if s.recs[o.value].state == Normal then LostRunning(s, s', d, o.value)
            else LostDying(s, s', d)
  {
    ReportCases(s, d, t);
    if t != s.mngs[d].card {
      CardGoneCases(s, d);
      if s.mngs[d].child.None? {
        LostWaitingLaw(s, d);
      } else if s.recs[s.mngs[d].child.value].state == Normal {
        LostRunningLaw(s, d, s.mngs[d].child.value);
      } else {
        LostDyingLaw(s, d);
      }
    } else {
      SeenLaw(s, d, t);
    }
  }

  lemma SeenLaw(s: Sup, d: nat, t: int)
    requires Inv(s) && Dynamic(s, d)
    ensures OnlyFilter(s, SetMng(s, d, SeenAgain(s.mngs[d], t)), d)
  {
  }

  lemma LostWaitingLaw(s: Sup, d: nat)
    requires Inv(s) && Dynamic(s, d) && d in s.queue
    ensures LostWaiting(s, OnOffLine(DelFrom2Start(Uncarded(s, d), d), d, ETINDEV_NULL).0, d)
  {
    OnOffLineIs(DelFrom2Start(Uncarded(s, d), d), d, ETINDEV_NULL);
  }

  lemma LostDyingLaw(s: Sup, d: nat)
    requires Inv(s) && Dynamic(s, d)
    ensures LostDying(s, Uncarded(s, d), d)
  {
  }

  lemma LostRunningLaw(s: Sup, d: nat, r: nat)
    requires Inv(s) && Dynamic(s, d) && r < |s.recs| && s.recs[r].state == Normal
    ensures LostRunning(s, Term(Uncarded(s, d), r), d, r)
  {
    assert RecOk(s, r);
    TermFacts(Uncarded(s, d), r);
    MovedLists(s, NORMAL, EXITING, r);
    if s.lists[EXITING] != [] { assert s.termTimer; }
  }

  // Any other report changes nothing.
  lemma OtherReportLaw(s: Sup, d: int, t: int)
    requires Inv(s) && !Reportable(s, d, t)
    ensures Step(s, CardReport(d, t)) == s
  {
    ReportCases(s, d, t);
  }
}
