// Shutdown: CProcessPdm::Stop of pdm/src/pdm_main.cpp and the phases it calls.

module SupShutdown {
  import opened Wrappers
  import opened Queues
  import opened Registry
  import opened SupModel
  import opened SupInv
  import opened SupSteps

  // The numbers from hi - 1 down to lo.
  function Down(lo: nat, hi: nat): (q: seq<nat>)
    requires lo <= hi
  {
    seq(hi - lo, i requires 0 <= i < hi - lo => hi - 1 - i)
  }

  // The order of each phase's loops: dynamic managers from the last to the first, then the static ones.
  function StopOrder(s: Sup): (q: seq<nat>)
    requires Fits(s)
    ensures Below(q, |s.mngs|)
  {
    Down(0, |s.drv.slots|) + Down(|s.drv.slots|, |s.mngs|)
  }

  lemma StopOrderCovers(s: Sup)
    requires Fits(s)
    ensures NoDup(StopOrder(s)) && forall m :: 0 <= m < |s.mngs| ==> m in StopOrder(s)
    ensures forall j, k :: 0 <= j < k < |StopOrder(s)| ==>
              var m, n := StopOrder(s)[j], StopOrder(s)[k];
              (Dynamic(s, m) && !Dynamic(s, n)) || (Dynamic(s, m) == Dynamic(s, n) && m > n)
  {
    var q, n := StopOrder(s), |s.drv.slots|;
    forall m | 0 <= m < |s.mngs| ensures m in q {
      assert q[if m < n then n - 1 - m else n + |s.mngs| - 1 - m] == m;
    }
  }

  // CPrcMngInfo::Term4Stop and Kill4Stop
  function Signal4Stop(s: Sup, m: nat, kill: bool): (s': Sup)
    requires Fits(s) && m < |s.mngs|
    ensures Fits(s') && SameConfig(s, s')
  {
    match s.mngs[m].child
    case None => s
    case Some(r) => if kill then SignalKill(s, r) else SignalTerm(s, r)
  }

  function SignalAll(s: Sup, q: seq<nat>, kill: bool): (s': Sup)
    requires Fits(s) && Below(q, |s.mngs|)
    ensures Fits(s') && SameConfig(s, s')
  {
    if q == [] then s else Signal4Stop(SignalAll(s, Front(q), kill), Last(q), kill)
  }

  function StopAll(s: Sup, q: seq<nat>): (s': Sup)
    requires Fits(s) && Below(q, |s.mngs|)
    ensures Fits(s') && SameConfig(s, s')
  {
    if q == [] then s else Stop(StopAll(s, Front(q)), Last(q))
  }

  // Children dying while the supervisor sleeps.
  function Die(s: Sup, dead: set<int>): (s': Sup)
    requires Fits(s)
    ensures Fits(s') && SameConfig(s, s')
  {
    s.(alive := s.alive - dead, zombies := s.zombies + s.alive * dead)
  }

  // The state when the last phase begins.
  function Signalled(s: Sup, dead1: set<int>, dead2: set<int>): (s': Sup)
    requires Fits(s)
    ensures Fits(s') && SameConfig(s, s')
  {
    var s1 := Die(SignalAll(s, StopOrder(s), false), dead1);
    Die(SignalAll(s1, StopOrder(s), true), dead2).(exitFlag := true)
  }

  // CProcessPdm::Stop; dead1 and dead2 die during its two sleeps.
  function Shutdown(s: Sup, dead1: set<int>, dead2: set<int>): (s': Sup)
    requires Fits(s)
    ensures Fits(s') && SameConfig(s, s')
  {
    var s1 := Signalled(s, dead1, dead2);
    StopAll(s1, StopOrder(s)).(startTimer := false, termTimer := false, killTimer := false)
  }

  // ---------- the weaker invariant that survives the signals ----------

  // States and lists no longer match, but a record is free exactly if it is in the pool.
  ghost predicate RecWeak(s: Sup, i: nat)
    requires Fits(s) && i < |s.recs|
  {
    var v := s.recs[i];
    && (v.state == Null ==> v == FREE_REC && i in s.lists[POOL])
    && (v.state != Null ==>
          && v.pid > 0 && v.parent.Some? && s.mngs[v.parent.value].child == Some(i)
          && (i in s.lists[NORMAL] || i in s.lists[EXITING] || i in s.lists[KILLING]))
  }

  ghost predicate Weak(s: Sup) {
    && Fits(s) && Disjoint(s.lists)
    && (forall i {:trigger RecWeak(s, i)} :: 0 <= i < |s.recs| ==> RecWeak(s, i))
    && (forall m {:trigger LinkOk(s, m)} :: 0 <= m < |s.mngs| ==> LinkOk(s, m))
    && DistinctPids(s.recs)
    && (forall m {:trigger s.mngs[m]} :: 0 <= m < |s.mngs| && s.mngs[m].child.Some? ==>
          m !in s.queue && (Dynamic(s, m) ==> m != s.self))
  }

  lemma CoreIsWeak(s: Sup)
    requires Core(s)
    ensures Weak(s)
  {
    forall i | 0 <= i < |s.recs| ensures RecWeak(s, i) { assert RecOk(s, i); }
    forall m | 0 <= m < |s.mngs| && s.mngs[m].child.Some? ensures m !in s.queue && (Dynamic(s, m) ==> m != s.self) {
      assert MngBasic(s, m);
    }
  }

  // The manager's record is its own and nobody else's.
  ghost predicate OneRecord(s: Sup, m: nat)
    requires Fits(s) && m < |s.mngs|
  {
    forall i {:trigger s.recs[i].parent} :: 0 <= i < |s.recs| ==>
      (s.recs[i].parent == Some(m) <==> s.mngs[m].child == Some(i))
  }

  lemma WeakOneRecord(s: Sup, m: nat)
    requires Weak(s) && m < |s.mngs|
    ensures OneRecord(s, m)
  {
    assert LinkOk(s, m);
    forall i | 0 <= i < |s.recs| ensures s.recs[i].parent == Some(m) <==> s.mngs[m].child == Some(i) {
      assert RecWeak(s, i);
    }
  }

  // ---------- signalling ----------

  function SignalledRec(v: Rec, kill: bool): Rec {
    if kill then v.(state := Killing, sent := v.sent + [SigKill]) else v.(state := Exiting, sent := v.sent + [SigTerm])
  }

  // The records of the managers in q have been signalled.
  ghost predicate SignalledBy(s: Sup, s': Sup, q: seq<nat>, kill: bool)
    requires Fits(s) && Fits(s') && SameConfig(s, s')
  {
    && s' == s.(recs := s'.recs)
    && forall i {:trigger s'.recs[i]} :: 0 <= i < |s.recs| ==>
         s'.recs[i] == if Busy(s.recs[i]) && s.recs[i].parent.Some? && s.recs[i].parent.value in q
                       then SignalledRec(s.recs[i], kill) else s.recs[i]
  }

  lemma {:induction false} SignalAllSignals(s: Sup, q: seq<nat>, kill: bool)
    requires Weak(s) && Below(q, |s.mngs|) && NoDup(q)
    ensures SignalledBy(s, SignalAll(s, q, kill), q, kill)
  {
    if q != [] {
      SignalAllSignals(s, Front(q), kill);
      SignalNext(s, SignalAll(s, Front(q), kill), q, kill);
    }
  }

  lemma SignalNext(s: Sup, s1: Sup, q: seq<nat>, kill: bool)
    requires Weak(s) && Fits(s1) && SameConfig(s, s1) && q != [] && Below(q, |s.mngs|) && NoDup(q)
    requires SignalledBy(s, s1, Front(q), kill)
    ensures SignalledBy(s, Signal4Stop(s1, Last(q), kill), q, kill)
  {
    assert q == Front(q) + [Last(q)] && Last(q) !in Front(q);
    SignalCases(s1, Last(q), kill);
    WeakOneRecord(s, Last(q));
    SignalledNext(s, s1, Signal4Stop(s1, Last(q), kill), q, kill);
  }

  lemma SignalledNext(s: Sup, s1: Sup, s': Sup, q: seq<nat>, kill: bool)
    requires Weak(s) && Fits(s1) && Fits(s') && SameConfig(s, s1) && SameConfig(s1, s') && q != [] && Below(q, |s.mngs|)
    requires q == Front(q) + [Last(q)] && Last(q) !in Front(q) && OneRecord(s, Last(q))
    requires SignalledBy(s, s1, Front(q), kill)
    requires s' == if s1.mngs[Last(q)].child.None? then s1
                   else var r := s1.mngs[Last(q)].child.value; s1.(recs := s1.recs[r := SignalledRec(s1.recs[r], kill)])
    ensures SignalledBy(s, s', q, kill)
  {
    forall i | 0 <= i < |s.recs|
      ensures s'.recs[i] == if Busy(s.recs[i]) && s.recs[i].parent.Some? && s.recs[i].parent.value in q
                            then SignalledRec(s.recs[i], kill) else s.recs[i]
    {
      assert s.recs[i].parent == Some(Last(q)) <==> s.mngs[Last(q)].child == Some(i);
      assert RecWeak(s, i);
    }
  }

  lemma SignalCases(s: Sup, m: nat, kill: bool)
    requires Fits(s) && m < |s.mngs|
    ensures s.mngs[m].child.None? ==> Signal4Stop(s, m, kill) == s
    ensures s.mngs[m].child.Some? ==>
              var r := s.mngs[m].child.value;
              Signal4Stop(s, m, kill) == s.(recs := s.recs[r := SignalledRec(s.recs[r], kill)])
  {
  }

  // When all managers have been through a signalling phase.
  ghost predicate AllSignalled(s: Sup, s': Sup, kill: bool)
    requires Fits(s) && Fits(s') && SameConfig(s, s')
  {
    && s' == s.(recs := s'.recs) && Pids(s'.recs) == Pids(s.recs)
    && forall i {:trigger s'.recs[i]} :: 0 <= i < |s.recs| ==>
         s'.recs[i] == if Busy(s.recs[i]) then SignalledRec(s.recs[i], kill) else s.recs[i]
  }

  lemma PhaseSignalsAll(s: Sup, kill: bool)
    requires Weak(s)
    ensures var s' := SignalAll(s, StopOrder(s), kill); Weak(s') && AllSignalled(s, s', kill)
  {
    var s' := SignalAll(s, StopOrder(s), kill);
    StopOrderCovers(s);
    SignalAllSignals(s, StopOrder(s), kill);
    forall i | 0 <= i < |s.recs|
      ensures s'.recs[i] == if Busy(s.recs[i]) then SignalledRec(s.recs[i], kill) else s.recs[i]
    {
      assert RecWeak(s, i);
    }
    PidsSame(s.recs, s'.recs);
    forall i | 0 <= i < |s.recs| ensures RecWeak(s', i) { assert RecWeak(s, i); }
    forall m | 0 <= m < |s.mngs| ensures LinkOk(s', m) { assert LinkOk(s, m); }
  }

  // After the TERM phase every process is Exiting.
  function Termed4Stop(s: Sup, dead1: set<int>): (s': Sup)
    requires Fits(s)
    ensures Fits(s') && SameConfig(s, s')
  {
    Die(SignalAll(s, StopOrder(s), false), dead1)
  }

  // One phase: all processes are signalled, then some of them die.
  ghost predicate PhaseEnded(s: Sup, s': Sup, kill: bool, dead: set<int>)
    requires Fits(s)
  {
    && Weak(s') && SameConfig(s, s') && StopOrder(s') == StopOrder(s) && Pids(s'.recs) == Pids(s.recs)
    && (ChildrenOk(s) ==> ChildrenOk(s'))
    && s' == s.(recs := s'.recs, alive := s.alive - dead, zombies := s'.zombies)
    && forall i {:trigger s'.recs[i]} :: 0 <= i < |s.recs| ==>
         s'.recs[i] == if Busy(s.recs[i]) then SignalledRec(s.recs[i], kill) else s.recs[i]
  }

  lemma PhaseEnds(s: Sup, kill: bool, dead: set<int>)
    requires Weak(s)
    ensures PhaseEnded(s, Die(SignalAll(s, StopOrder(s), kill), dead), kill, dead)
  {
    PhaseSignalsAll(s, kill);
    DieKeepsWeak(SignalAll(s, StopOrder(s), kill), dead);
  }

  // When the last phase begins: every process is Killing, and nothing but children has changed otherwise.
  ghost predicate AllKilling(s: Sup, s2: Sup, alive: set<int>) {
    && Weak(s2) && SameConfig(s, s2) && Pids(s2.recs) == Pids(s.recs) && (ChildrenOk(s) ==> ChildrenOk(s2))
    && s2 == s.(recs := s2.recs, exitFlag := true, alive := alive, zombies := s2.zombies)
    && forall i {:trigger s2.recs[i]} :: 0 <= i < |s.recs| ==>
         s2.recs[i] == if Busy(s.recs[i])
                       then s.recs[i].(state := Killing, sent := s.recs[i].sent + [SigTerm, SigKill]) else s.recs[i]
  }

  lemma TwoPhases(s: Sup, s1: Sup, k: Sup, s2: Sup, dead1: set<int>, dead2: set<int>)
    requires Fits(s) && Fits(s1) && PhaseEnded(s, s1, false, dead1) && PhaseEnded(s1, k, true, dead2)
    requires Weak(s2) && s2 == k.(exitFlag := true)
    ensures AllKilling(s, s2, s.alive - dead1 - dead2)
  {
    forall i | 0 <= i < |s.recs|
      ensures s2.recs[i] == if Busy(s.recs[i])
                            then s.recs[i].(state := Killing, sent := s.recs[i].sent + [SigTerm, SigKill])
                            else s.recs[i]
    {
      assert s1.recs[i] == if Busy(s.recs[i]) then SignalledRec(s.recs[i], false) else s.recs[i];
      SignalledTwice(s.recs[i]);
    }
  }

  // However shutdown begins, its last phase begins with every process Killing.
  lemma PhasesKill(s: Sup, dead1: set<int>, dead2: set<int>)
    requires Core(s)
    ensures AllKilling(s, Signalled(s, dead1, dead2), s.alive - dead1 - dead2)
  {
    CoreIsWeak(s);
    PhaseEnds(s, false, dead1);
    var s1 := Termed4Stop(s, dead1);
    PhaseEnds(s1, true, dead2);
    var k := Die(SignalAll(s1, StopOrder(s1), true), dead2);
    ExitKeepsWeak(k);
    SignalledIs(s, dead1, dead2);
    TwoPhases(s, s1, k, Signalled(s, dead1, dead2), dead1, dead2);
  }

  // What signalTerm and signalKill assert of the processes they signal.
  ghost predicate SignalsAllowed(s: Sup) {
    forall i {:trigger s.recs[i]} :: 0 <= i < |s.recs| && Busy(s.recs[i]) ==> s.recs[i].state in {Normal, Exiting}
  }

  // The TERM phase finds every process in a state its assertion allows exactly if none is being killed
  // when shutdown begins; the KILL phase always does.
  lemma SignalsAllowedIff(s: Sup, dead1: set<int>)
    requires Core(s)
    ensures SignalsAllowed(s) <==> s.lists[KILLING] == []
    ensures SignalsAllowed(Termed4Stop(s, dead1))
  {
    CoreIsWeak(s);
    PhaseEnds(s, false, dead1);
    forall i | 0 <= i < |s.recs| ensures s.recs[i].state == Killing <==> i in s.lists[KILLING] {
      assert RecOk(s, i);
      if i in s.lists[KILLING] { InOneList(s, i, KILLING); }
    }
    if s.lists[KILLING] != [] { assert s.recs[First(s.lists[KILLING])].state == Killing; }
  }

  lemma SignalledIs(s: Sup, dead1: set<int>, dead2: set<int>)
    requires Fits(s)
    ensures var s1 := Termed4Stop(s, dead1);
            Signalled(s, dead1, dead2) == Die(SignalAll(s1, StopOrder(s1), true), dead2).(exitFlag := true)
  {
    assert StopOrder(Termed4Stop(s, dead1)) == StopOrder(s);
  }

  lemma SignalledTwice(v: Rec)
    ensures SignalledRec(SignalledRec(v, false), true) == v.(state := Killing, sent := v.sent + [SigTerm, SigKill])
  {
  }

  lemma DieKeepsWeak(s: Sup, dead: set<int>)
    requires Weak(s)
    ensures Weak(Die(s, dead))
  {
    forall i | 0 <= i < |s.recs| ensures RecWeak(Die(s, dead), i) { assert RecWeak(s, i); }
    forall m | 0 <= m < |s.mngs| ensures LinkOk(Die(s, dead), m) { assert LinkOk(s, m); }
  }

  lemma ExitKeepsWeak(s: Sup)
    requires Weak(s)
    ensures Weak(s.(exitFlag := true))
  {
    var s' := s.(exitFlag := true);
    forall i | 0 <= i < |s.recs| ensures RecWeak(s', i) { assert RecWeak(s, i); }
    forall m | 0 <= m < |s.mngs| ensures LinkOk(s', m) { assert LinkOk(s, m); }
  }

  // ---------- the last phase ----------

  predicate Gone(s: Sup, m: nat)
    requires Fits(s) && m < |s.mngs|
  {
    s.mngs[m].child.Some? && s.recs[s.mngs[m].child.value].pid !in s.alive
  }

  // The slot of m went off line by one ioctl, and no other was issued for it.
  ghost predicate WentOffLine(s: Sup, s': Sup, m: nat)
    requires m < |s.mngs| && m < |s'.mngs| && Dynamic(s, m) && Dynamic(s', m)
  {
    s'.drv.slots[m].card == ETINDEV_NULL && s'.mngs[m].io == s.mngs[m].io + [IoCall(ETINDEV_NULL, s.drv.slots[m].card)]
  }

  // What stopping manager m while exiting comes to.
  ghost predicate StoppedOne(s: Sup, s': Sup, m: nat)
    requires Fits(s) && Fits(s') && SameConfig(s, s') && m < |s.mngs|
  {
    && s'.exitFlag == s.exitFlag && s'.alive == s.alive
    && s'.drv.types == s.drv.types && s'.drv.cbRet == s.drv.cbRet
    && s'.queue == (if Gone(s, m) && !Dynamic(s, m) then s.queue + [m] else s.queue)
    && (!Gone(s, m) ==> s' == s)
    && (Gone(s, m) ==>
          && s'.zombies == s.zombies - {s.recs[s.mngs[m].child.value].pid}
          && s'.recs == s.recs[s.mngs[m].child.value := FREE_REC]
          && s'.mngs[m].child == None
          && s'.lists == Accept(s.lists, POOL, s.mngs[m].child.value)
          && (Dynamic(s, m) ==> WentOffLine(s, s', m)))
    && (forall n {:trigger s'.mngs[n]} :: 0 <= n < |s.mngs| && n != m ==> s'.mngs[n] == s.mngs[n])
    && (forall d {:trigger s'.drv.slots[d]} :: 0 <= d < |s.drv.slots| && d != m ==> s'.drv.slots[d] == s.drv.slots[d])
  }

  lemma StopWhileExiting(s: Sup, m: nat)
    requires Weak(s) && s.exitFlag && m < |s.mngs|
    ensures StoppedOne(s, Stop(s, m), m)
  {
    if s.mngs[m].child.Some? {
      var r := s.mngs[m].child.value;
      assert LinkOk(s, m);
      ReleaseFacts(s, r);
      StopCases(s, m);
      var s1 := Release(s, r).0;
      if Gone(s, m) && Dynamic(s, m) {
        RestartWhileExiting(s1, m);
        OffLineFacts(s1, m);
        OnOffLineFrame(s1, m, ETINDEV_NULL);
        OffLineStops(s, s1, Stop(s, m), m);
      }
    }
  }

  lemma OffLineStops(s: Sup, s1: Sup, s': Sup, m: nat)
    requires Fits(s) && Fits(s1) && Fits(s') && SameConfig(s, s1) && SameConfig(s1, s') && Dynamic(s, m) && Gone(s, m)
    requires var r := s.mngs[m].child.value;
             s1 == s.(zombies := s.zombies - {s.recs[r].pid}, recs := s.recs[r := FREE_REC],
                      mngs := s.mngs[m := s.mngs[m].(child := None)],
                      lists := Accept(s.lists, POOL, r))
    requires s' == s1.(drv := s'.drv, mngs := s'.mngs) && s'.drv.slots[m].card == ETINDEV_NULL
    requires s'.drv == s1.drv.(slots := s'.drv.slots)
    requires s'.mngs == s1.mngs[m := s1.mngs[m].(io := s1.mngs[m].io + [IoCall(ETINDEV_NULL, s1.drv.slots[m].card)])]
    requires forall d :: 0 <= d < |s.drv.slots| && d != m ==> s'.drv.slots[d] == s1.drv.slots[d]
    ensures StoppedOne(s, s', m)
  {
  }

  lemma RestartWhileExiting(s: Sup, m: nat)
    requires Fits(s) && Dynamic(s, m) && s.exitFlag
    ensures Restart(s, m) == OnOffLine(s, m, ETINDEV_NULL).0
  {
  }

  lemma StoppedOneWeak(s: Sup, s': Sup, m: nat)
    requires Weak(s) && m < |s.mngs| && Fits(s') && SameConfig(s, s') && StoppedOne(s, s', m)
    ensures Weak(s')
  {
    if Gone(s, m) {
      var r := s.mngs[m].child.value;
      assert LinkOk(s, m) && RecWeak(s, r);
      AcceptMembers(s.lists, POOL, r);
      PidsStop(s.recs, r, FREE_REC);
      forall i | 0 <= i < |s.recs| ensures RecWeak(s', i) { assert RecWeak(s, i); }
      forall n | 0 <= n < |s.mngs| ensures LinkOk(s', n) { assert LinkOk(s, n); }
    }
  }

  // After the managers in q have been stopped: those whose child is dead have lost it, its record is
  // free and out of the busy lists, and their slots are off line; nothing else changed.
  ghost predicate StoppedBy(s: Sup, s': Sup, q: seq<nat>)
    requires Fits(s) && Fits(s') && SameConfig(s, s')
  {
    && s'.exitFlag == s.exitFlag && s'.alive == s.alive
    && s'.drv.types == s.drv.types && s'.drv.cbRet == s.drv.cbRet
    && Below(q, |s.mngs|) && s'.queue == s.queue + Requeued(s, q) && Reaped(s, s', GoneRecs(s, q))
    && (forall m {:trigger MngStopped(s, s', q, m)} :: 0 <= m < |s.mngs| ==> MngStopped(s, s', q, m))
    && (forall i {:trigger RecStopped(s, s', q, i)} :: 0 <= i < |s.recs| ==> RecStopped(s, s', q, i))
    && (forall d {:trigger SlotStopped(s, s', q, d)} :: 0 <= d < |s.drv.slots| ==> SlotStopped(s, s', q, d))
    && (forall k {:trigger ListStopped(s, s', q, k)} :: 1 <= k < 4 ==> ListStopped(s, s', q, k))
  }

  // The static managers of q whose children are dead; they wait again.
  function Requeued(s: Sup, q: seq<nat>): seq<nat>
    requires Fits(s) && Below(q, |s.mngs|)
  {
    if q == [] then []
    else if !Dynamic(s, Last(q)) && Gone(s, Last(q)) then Requeued(s, Front(q)) + [Last(q)]
    else Requeued(s, Front(q))
  }

  // The zombies of the records of g have been reaped, and no others.
  ghost predicate Reaped(s: Sup, s': Sup, g: set<nat>)
    requires forall i :: i in g ==> i < |s.recs|
  {
    forall p {:trigger p in s'.zombies} ::
      p in s'.zombies <==> p in s.zombies && forall i :: i in g ==> s.recs[i].pid != p
  }

  ghost predicate MngStopped(s: Sup, s': Sup, q: seq<nat>, m: nat)
    requires Fits(s) && Fits(s') && SameConfig(s, s') && m < |s.mngs|
  {
    if m in q && Gone(s, m) then s'.mngs[m].child.None? else s'.mngs[m] == s.mngs[m]
  }

  ghost predicate RecStopped(s: Sup, s': Sup, q: seq<nat>, i: nat)
    requires Fits(s) && Fits(s') && SameConfig(s, s') && i < |s.recs|
  {
    s'.recs[i] == if i in GoneRecs(s, q) then FREE_REC else s.recs[i]
  }

  ghost predicate SlotStopped(s: Sup, s': Sup, q: seq<nat>, d: nat)
    requires Fits(s) && Fits(s') && SameConfig(s, s') && Dynamic(s, d)
  {
    if d in q && Gone(s, d) then WentOffLine(s, s', d) else s'.drv.slots[d].card == s.drv.slots[d].card
  }

  ghost predicate ListStopped(s: Sup, s': Sup, q: seq<nat>, k: nat)
    requires Fits(s) && Fits(s') && 1 <= k < 4
  {
    s'.lists[k] == Without(s.lists[k], GoneRecs(s, q))
  }

  // The records of the managers in q whose children are dead.
  function GoneRecs(s: Sup, q: seq<nat>): (g: set<nat>)
    requires Fits(s)
  {
    set i: nat | i < |s.recs| && GoneFor(s, q, i)
  }

  predicate GoneFor(s: Sup, q: seq<nat>, i: nat)
    requires i < |s.recs|
  {
    s.recs[i].parent.Some? && s.recs[i].parent.value in q && s.recs[i].pid !in s.alive
  }

  lemma {:induction false} StopAllStops(s: Sup, q: seq<nat>)
    requires Weak(s) && s.exitFlag && Below(q, |s.mngs|) && NoDup(q)
    ensures Weak(StopAll(s, q)) && StoppedBy(s, StopAll(s, q), q)
  {
    if q == [] {
      NoneStopped(s);
    } else {
      StopAllStops(s, Front(q));
      assert q == Front(q) + [Last(q)] && Last(q) !in Front(q);
      StopOneMore(s, StopAll(s, Front(q)), q);
    }
  }

  lemma StopOneMore(s: Sup, s1: Sup, q: seq<nat>)
    requires Weak(s) && Weak(s1) && s.exitFlag && SameConfig(s, s1) && Below(q, |s.mngs|)
    requires q != [] && q == Front(q) + [Last(q)] && Last(q) !in Front(q) && StoppedBy(s, s1, Front(q))
    ensures Weak(Stop(s1, Last(q))) && StoppedBy(s, Stop(s1, Last(q)), q)
  {
    var m := Last(q);
    WeakOneRecord(s, m);
    StopWhileExiting(s1, m);
    StoppedOneWeak(s1, Stop(s1, m), m);
    StopNext(s, s1, Stop(s1, m), q);
  }

  lemma NoneStopped(s: Sup)
    requires Fits(s)
    ensures StoppedBy(s, s, [])
  {
    forall k | 1 <= k < 4 ensures ListStopped(s, s, [], k) { WithoutNothing(s.lists[k], GoneRecs(s, [])); }
    forall d | 0 <= d < |s.drv.slots| ensures SlotStopped(s, s, [], d) {}
  }

  // One more manager is stopped, after those before it in q.
  ghost predicate Stopping(s: Sup, s1: Sup, s': Sup, q: seq<nat>) {
    && Fits(s) && Fits(s1) && Fits(s') && SameConfig(s, s1) && SameConfig(s1, s')
    && q != [] && Below(q, |s.mngs|) && q == Front(q) + [Last(q)] && Last(q) !in Front(q)
    && StoppedBy(s, s1, Front(q)) && StoppedOne(s1, s', Last(q)) && OneRecord(s, Last(q))
  }

  lemma StopNext(s: Sup, s1: Sup, s': Sup, q: seq<nat>)
    requires Stopping(s, s1, s', q) && Disjoint(s.lists)
    ensures StoppedBy(s, s', q)
  {
    forall m | 0 <= m < |s.mngs| ensures MngStopped(s, s', q, m) { MngNext(s, s1, s', q, m); }
    forall i | 0 <= i < |s.recs| ensures RecStopped(s, s', q, i) { RecNext(s, s1, s', q, i); }
    forall d | 0 <= d < |s.drv.slots| ensures SlotStopped(s, s', q, d) { SlotNext(s, s1, s', q, d); }
    QueueNext(s, s1, s', q);
    ZombiesNext(s, s1, s', q);
    forall k | 1 <= k < 4 ensures ListStopped(s, s', q, k) {
      assert NoDup(s.lists[k]);
      ListNext(s, s1, s', q, k);
    }
  }

  // The manager stopped last has not been touched before.
  lemma LastUntouched(s: Sup, s1: Sup, s': Sup, q: seq<nat>)
    requires Stopping(s, s1, s', q)
    ensures s1.mngs[Last(q)] == s.mngs[Last(q)] && (Gone(s1, Last(q)) <==> Gone(s, Last(q)))
  {
    assert MngStopped(s, s1, Front(q), Last(q));
    if s.mngs[Last(q)].child.Some? { assert RecStopped(s, s1, Front(q), s.mngs[Last(q)].child.value); }
  }

  lemma MngNext(s: Sup, s1: Sup, s': Sup, q: seq<nat>, m: nat)
    requires Stopping(s, s1, s', q) && m < |s.mngs|
    ensures MngStopped(s, s', q, m)
  {
    LastUntouched(s, s1, s', q);
    assert MngStopped(s, s1, Front(q), m);
    if m != Last(q) { assert s'.mngs[m] == s1.mngs[m]; }
  }

  lemma GoneRecsNext(s: Sup, s1: Sup, s': Sup, q: seq<nat>)
    requires Stopping(s, s1, s', q)
    ensures GoneRecs(s, q) == GoneRecs(s, Front(q)) + if Gone(s, Last(q)) then {s.mngs[Last(q)].child.value} else {}
  {
    forall i: nat | i < |s.recs|
      ensures GoneFor(s, q, i) <==> GoneFor(s, Front(q), i) || (Gone(s, Last(q)) && s.mngs[Last(q)].child == Some(i))
    {
      assert s.recs[i].parent == Some(Last(q)) <==> s.mngs[Last(q)].child == Some(i);
    }
  }

  lemma RecNext(s: Sup, s1: Sup, s': Sup, q: seq<nat>, i: nat)
    requires Stopping(s, s1, s', q) && i < |s.recs|
    ensures RecStopped(s, s', q, i)
  {
    LastUntouched(s, s1, s', q);
    GoneRecsNext(s, s1, s', q);
    assert RecStopped(s, s1, Front(q), i);
  }

  lemma ListNext(s: Sup, s1: Sup, s': Sup, q: seq<nat>, k: nat)
    requires Stopping(s, s1, s', q) && 1 <= k < 4 && NoDup(s.lists[k])
    ensures ListStopped(s, s', q, k)
  {
    LastUntouched(s, s1, s', q);
    GoneRecsNext(s, s1, s', q);
    assert ListStopped(s, s1, Front(q), k);
    if Gone(s, Last(q)) {
      DelWithout(s.lists[k], GoneRecs(s, Front(q)), s.mngs[Last(q)].child.value);
      assert s'.lists[k] == Del(s1.lists[k], s.mngs[Last(q)].child.value);
    } else {
      assert GoneRecs(s, q) == GoneRecs(s, Front(q));
    }
  }

  lemma QueueNext(s: Sup, s1: Sup, s': Sup, q: seq<nat>)
    requires Stopping(s, s1, s', q)
    ensures s'.queue == s.queue + Requeued(s, q)
  {
    LastUntouched(s, s1, s', q);
  }

  lemma ZombiesNext(s: Sup, s1: Sup, s': Sup, q: seq<nat>)
    requires Stopping(s, s1, s', q)
    ensures Reaped(s, s', GoneRecs(s, q))
  {
    LastUntouched(s, s1, s', q);
    GoneRecsNext(s, s1, s', q);
    if Gone(s, Last(q)) {
      var r := s.mngs[Last(q)].child.value;
      assert RecStopped(s, s1, Front(q), r);
      assert s1.recs[r].pid == s.recs[r].pid;
    } else {
      assert GoneRecs(s, q) == GoneRecs(s, Front(q));
    }
  }

  lemma SlotNext(s: Sup, s1: Sup, s': Sup, q: seq<nat>, d: nat)
    requires Stopping(s, s1, s', q) && Dynamic(s, d)
    ensures SlotStopped(s, s', q, d)
  {
    LastUntouched(s, s1, s', q);
    assert SlotStopped(s, s1, Front(q), d);
    if d != Last(q) { assert s'.mngs[d] == s1.mngs[d] && s'.drv.slots[d] == s1.drv.slots[d]; }
  }

  // The records whose children are dead.
  function DeadRecs(recs: seq<Rec>, alive: set<int>): (g: set<nat>) {
    set i: nat | i < |recs| && Busy(recs[i]) && recs[i].pid !in alive
  }

  // All managers have been stopped.
  ghost predicate AllStopped(s: Sup, s': Sup)
    requires Fits(s) && Fits(s') && SameConfig(s, s')
  {
    && s'.exitFlag == s.exitFlag && s'.alive == s.alive
    && s'.drv.types == s.drv.types && s'.drv.cbRet == s.drv.cbRet
    && s'.queue == s.queue + Requeued(s, StopOrder(s)) && Reaped(s, s', DeadRecs(s.recs, s.alive))
    && (forall i {:trigger s'.recs[i]} :: 0 <= i < |s.recs| ==>
          s'.recs[i] == if i in DeadRecs(s.recs, s.alive) then FREE_REC else s.recs[i])
    && (forall k {:trigger s'.lists[k]} :: 1 <= k < 4 ==> s'.lists[k] == Without(s.lists[k], DeadRecs(s.recs, s.alive)))
    && (forall m {:trigger s'.mngs[m]} :: 0 <= m < |s.mngs| ==>
          && (Gone(s, m) ==> s'.mngs[m].child.None? && (Dynamic(s, m) ==> WentOffLine(s, s', m)))
          && (!Gone(s, m) ==>
                s'.mngs[m] == s.mngs[m] && (Dynamic(s, m) ==> s'.drv.slots[m].card == s.drv.slots[m].card)))
  }

  lemma AllGone(s: Sup, q: seq<nat>)
    requires Weak(s) && forall m :: 0 <= m < |s.mngs| ==> m in q
    ensures GoneRecs(s, q) == DeadRecs(s.recs, s.alive)
  {
    forall i: nat ensures i in GoneRecs(s, q) <==> i in DeadRecs(s.recs, s.alive) {
      if i < |s.recs| {
        assert RecWeak(s, i);
        assert s.recs[i].parent.Some? ==> s.recs[i].parent.value in q;
      }
    }
  }

  lemma StoppedByAll(s: Sup, s': Sup, q: seq<nat>)
    requires Weak(s) && Fits(s') && SameConfig(s, s') && StoppedBy(s, s', q) && q == StopOrder(s)
    requires forall m :: 0 <= m < |s.mngs| ==> m in q
    ensures AllStopped(s, s')
  {
    AllGone(s, q);
    forall i | 0 <= i < |s.recs| ensures s'.recs[i] == if i in DeadRecs(s.recs, s.alive) then FREE_REC else s.recs[i] {
      assert RecStopped(s, s', q, i);
    }
    forall k | 1 <= k < 4 ensures s'.lists[k] == Without(s.lists[k], DeadRecs(s.recs, s.alive)) {
      assert ListStopped(s, s', q, k);
    }
    forall m | 0 <= m < |s.mngs|
      ensures Gone(s, m) ==> s'.mngs[m].child.None? && (Dynamic(s, m) ==> WentOffLine(s, s', m))
      ensures !Gone(s, m) ==> s'.mngs[m] == s.mngs[m] && (Dynamic(s, m) ==> s'.drv.slots[m].card == s.drv.slots[m].card)
    {
      assert m in q && MngStopped(s, s', q, m);
      assert Dynamic(s, m) ==> SlotStopped(s, s', q, m);
    }
  }

  lemma LastPhase(s: Sup)
    requires Weak(s) && s.exitFlag
    ensures var s' := StopAll(s, StopOrder(s)); Weak(s') && s'.alive == s.alive && AllStopped(s, s')
  {
    StopOrderCovers(s);
    StopAllStops(s, StopOrder(s));
    StoppedByAll(s, StopAll(s, StopOrder(s)), StopOrder(s));
  }

  // The last phase begins with s2: managers, slots and lists are as in s, and so are pids.
  ghost predicate LastPhaseFrom(s: Sup, s2: Sup, alive: set<int>)
    requires Fits(s) && Fits(s2) && SameConfig(s, s2)
  {
    && s2.mngs == s.mngs && s2.drv == s.drv && s2.lists == s.lists && s2.queue == s.queue && s2.exitFlag
    && s2.alive == alive && ChildrenOk(s2)
    && (forall i {:trigger s2.recs[i]} :: 0 <= i < |s.recs| ==>
          Busy(s2.recs[i]) == Busy(s.recs[i]) && s2.recs[i].pid == s.recs[i].pid)
  }

  lemma LastPhaseBegins(s: Sup, dead1: set<int>, dead2: set<int>)
    requires Inv(s)
    ensures var s2 := Signalled(s, dead1, dead2);
            Weak(s2) && s2.exitFlag && LastPhaseFrom(s, s2, s.alive - dead1 - dead2) && StopOrder(s2) == StopOrder(s)
  {
    PhasesKill(s, dead1, dead2);
  }

  // What is left in s' when shutdown is over, s2 being the state when its last phase begins and alive
  // the children still living then. Every record whose child is dead is free and back in the pool, its
  // manager detached, and its slot off line, the last ioctl issued for it. A record whose child still
  // lives is left as it was, manager and slot included, in its place among the others in its list. Static
  // managers whose child is dead wait again. No zombie is left and no timer armed, and the program is
  // marked as exiting; the drivers' registrations are as before.
  ghost predicate ShutDown(s: Sup, s2: Sup, s': Sup, alive: set<int>)
    requires Fits(s) && Fits(s2) && Fits(s') && SameConfig(s, s2) && SameConfig(s, s')
  {
    var dead := DeadRecs(s.recs, alive);
    && !s'.startTimer && !s'.termTimer && !s'.killTimer && s'.exitFlag
    && s'.alive == alive && s'.zombies == {} && s'.drv.types == s.drv.types && s'.drv.cbRet == s.drv.cbRet
    && s'.queue == s.queue + Requeued(s2, StopOrder(s))
    && (forall i {:trigger s'.recs[i]} :: 0 <= i < |s.recs| ==>
          s'.recs[i] == if i in dead then FREE_REC else s2.recs[i])
    && (forall i :: i in dead ==> i in s'.lists[POOL])
    && (forall k {:trigger s'.lists[k]} :: 1 <= k < 4 ==> s'.lists[k] == Without(s.lists[k], dead))
    && (forall m {:trigger s'.mngs[m]} :: 0 <= m < |s.mngs| && s.mngs[m].child.Some? ==>
          if s.mngs[m].child.value in dead
          then s'.mngs[m].child.None? && (Dynamic(s, m) ==> WentOffLine(s, s', m))
          else s'.mngs[m] == s.mngs[m] && (Dynamic(s, m) ==> s'.drv.slots[m].card == s.drv.slots[m].card))
  }

  // So much for shutdown, however it begins.
  lemma ShutdownEnds(s: Sup, dead1: set<int>, dead2: set<int>)
    requires Inv(s)
    ensures ShutDown(s, Signalled(s, dead1, dead2), Shutdown(s, dead1, dead2), s.alive - dead1 - dead2)
  {
    LastPhaseBegins(s, dead1, dead2);
    var s2 := Signalled(s, dead1, dead2);
    LastPhase(s2);
    LinkedAreBusy(s);
    ShutdownVerdict(s, s2, StopAll(s2, StopOrder(s2)), Shutdown(s, dead1, dead2), s.alive - dead1 - dead2);
  }

  ghost predicate LinksBusy(s: Sup)
    requires Fits(s)
  {
    forall m {:trigger s.mngs[m]} :: 0 <= m < |s.mngs| && s.mngs[m].child.Some? ==> Busy(s.recs[s.mngs[m].child.value])
  }

  lemma LinkedAreBusy(s: Sup)
    requires Core(s)
    ensures LinksBusy(s)
  {
    forall m | 0 <= m < |s.mngs| && s.mngs[m].child.Some? ensures Busy(s.recs[s.mngs[m].child.value]) {
      assert LinkOk(s, m) && RecOk(s, s.mngs[m].child.value);
    }
  }

  lemma ShutdownVerdict(s: Sup, s2: Sup, s3: Sup, s': Sup, alive: set<int>)
    requires Fits(s) && Fits(s2) && Fits(s') && SameConfig(s, s2) && SameConfig(s2, s3) && SameConfig(s3, s')
    requires Weak(s3) && AllStopped(s2, s3) && s' == s3.(startTimer := false, termTimer := false, killTimer := false)
    requires LastPhaseFrom(s, s2, alive) && LinksBusy(s)
    ensures ShutDown(s, s2, s', alive)
  {
    var dead := DeadRecs(s.recs, alive);
    assert DeadRecs(s2.recs, alive) == dead;
    NoZombies(s2, s3);
    forall i | i in dead ensures i in s'.lists[POOL] {
      assert s3.recs[i] == FREE_REC;
      assert RecWeak(s3, i);
    }
    forall m | 0 <= m < |s.mngs| && s.mngs[m].child.Some?
      ensures if s.mngs[m].child.value in dead
              then s'.mngs[m].child.None? && (Dynamic(s, m) ==> WentOffLine(s, s', m))
              else s'.mngs[m] == s.mngs[m] && (Dynamic(s, m) ==> s'.drv.slots[m].card == s.drv.slots[m].card)
    {
      assert Gone(s2, m) <==> s.mngs[m].child.value in dead;
      assert Gone(s2, m) ==> s3.mngs[m].child.None? && (Dynamic(s, m) ==> WentOffLine(s2, s3, m));
    }
  }

  // Every zombie had a record, so all have been reaped.
  lemma NoZombies(s: Sup, s': Sup)
    requires ChildrenOk(s) && Reaped(s, s', DeadRecs(s.recs, s.alive))
    ensures s'.zombies == {}
  {
    forall p ensures p !in s'.zombies {
      if p in s.zombies {
        assert p in Pids(s.recs);
        var i :| 0 <= i < |s.recs| && Busy(s.recs[i]) && s.recs[i].pid == p;
        assert i in DeadRecs(s.recs, s.alive);
      }
    }
  }

  // If moreover every child is dead by the last phase, everything is back in the pool.
  lemma ShutdownEmpties(s: Sup, dead1: set<int>, dead2: set<int>)
    requires Inv(s)
    requires s.alive <= dead1 + dead2
    ensures var s' := Shutdown(s, dead1, dead2);
            && (forall i :: 0 <= i < |s'.recs| ==> s'.recs[i] == FREE_REC && i in s'.lists[POOL])
            && s'.lists[NORMAL] == s'.lists[EXITING] == s'.lists[KILLING] == []
            && (forall m :: 0 <= m < |s'.mngs| ==> s'.mngs[m].child.None?)
            && s'.alive == s'.zombies == {} && !s'.startTimer && !s'.termTimer && !s'.killTimer && s'.exitFlag
  {
    LastPhaseBegins(s, dead1, dead2);
    var s2 := Signalled(s, dead1, dead2);
    LastPhase(s2);
    NoZombies(s2, StopAll(s2, StopOrder(s2)));
    assert s.alive - dead1 - dead2 == {};
    AllPooled(s2, StopAll(s2, StopOrder(s2)));
  }

  lemma AllPooled(s: Sup, s': Sup)
    requires Weak(s) && Weak(s') && SameConfig(s, s') && s'.alive == s.alive == {}
    requires AllStopped(s, s')
    ensures forall m :: 0 <= m < |s'.mngs| ==> s'.mngs[m].child.None?
    ensures forall i :: 0 <= i < |s'.recs| ==> s'.recs[i] == FREE_REC && i in s'.lists[POOL]
    ensures s'.lists[NORMAL] == s'.lists[EXITING] == s'.lists[KILLING] == []
  {
    forall i | 0 <= i < |s.recs| ensures s'.recs[i] == FREE_REC && i in s'.lists[POOL] {
      assert RecWeak(s, i) && RecWeak(s', i);
    }
    forall k | 1 <= k < 4 ensures s'.lists[k] == [] {
      assert Apart(s'.lists[k], s'.lists[POOL]);
      ApartEmpty(s'.lists[k], s'.lists[POOL]);
    }
  }
}
