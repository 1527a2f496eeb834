// The three one-shot timers: each is armed exactly when it has to be.

module SupTimers {
  import opened Wrappers
  import opened Queues
  import opened Registry
  import opened SupModel
  import opened SupInv
  import opened SupSteps
  import opened SupChildren
  import opened SupCards
  import opened SupTraversal
  import opened SupRuns
  import opened SupEscalation
  import opened SupProgress
  import opened SupFaults
  import opened SupTicks

  datatype Timer = ToStart | ToKill | ToBury

  predicate Armed(s: Sup, w: Timer) {
    match w case ToStart => s.startTimer case ToKill => s.termTimer case ToBury => s.killTimer
  }

  // Somebody waits for the timer.
  predicate Awaited(s: Sup, w: Timer)
    requires |s.lists| == 4
  {
    match w case ToStart => s.queue != [] case ToKill => s.lists[EXITING] != [] case ToBury => s.lists[KILLING] != []
  }

  predicate Ticks(e: Event, w: Timer) {
    match w case ToStart => e.StartTick? case ToKill => e.TermTick? case ToBury => e.KillTick?
  }

  // A timer's own tick stops it exactly if nobody waits afterwards; any other event arms it exactly if
  // somebody waits afterwards, and never stops it.
  ghost predicate Timed(s: Sup, s': Sup, w: Timer, tick: bool)
    requires Fits(s) && Fits(s')
  {
    Armed(s', w) <==> if tick then Armed(s, w) && Awaited(s', w) else Armed(s, w) || Awaited(s', w)
  }

  lemma TimerLaw(s: Sup, e: Event, w: Timer)
    requires Inv(s) && Possible(s, e) && !Step(s, e).faulted
    ensures Timed(s, Step(s, e), w, Ticks(e, w))
  {
    match e
    case SpvTick => SpvTimers(s, w);
    case TermTick => TermTickTimers(s, w);
    case KillTick => KillTickTimers(s, w);
    case SigChld(order) => BuryAllTimers(s, order, w);
    case StartTick(fork) => StartTickTimers(s, fork, w);
    case CardReport(slot, card) => ReportTimers(s, slot, card, w);
    case CardPoll(cards) => CheckDevChangeTimers(s, cards, w);
    case _ => QuietTimers(s, e, w);
  }

  lemma QuietTimers(s: Sup, e: Event, w: Timer)
    requires Inv(s) && Possible(s, e) && (e.HelloTick? || e.HelloAck? || e.Dies? || e.DriverEvent?)
    ensures Timed(s, Step(s, e), w, false)
  {
    if e.HelloAck? { AckCases(s, e.pid, FindObj(s.recs, s.lists[NORMAL], e.pid)); }
    SameTimers(s, Step(s, e), w);
  }

  lemma SameTimers(s: Sup, s': Sup, w: Timer)
    requires Fits(s) && Fits(s') && TimersOk(s) && s'.lists == s.lists && s'.queue == s.queue
    requires s'.startTimer == s.startTimer && s'.termTimer == s.termTimer && s'.killTimer == s.killTimer
    ensures Timed(s, s', w, false)
  {
  }

  lemma SpvTimers(s: Sup, w: Timer)
    requires Inv(s)
    ensures Timed(s, Step(s, SpvTick), w, false)
  {
    CheckLiveStateVisits(s);
    VisitedTimers(s, Step(s, SpvTick), w);
  }

  lemma VisitedTimers(s: Sup, s': Sup, w: Timer)
    requires Fits(s) && Fits(s') && SameConfig(s, s') && TimersOk(s) && Visited(s, s.lists[NORMAL], [], s')
    ensures Timed(s, s', w, false)
  {
  }

  lemma TermTickTimers(s: Sup, w: Timer)
    requires Inv(s)
    ensures Timed(s, Step(s, TermTick), w, w.ToKill?)
  {
    TermTickLaw(s);
    TermedTimers(s, Step(s, TermTick), w);
  }

  lemma TermedTimers(s: Sup, s': Sup, w: Timer)
    requires Fits(s) && Fits(s') && TimersOk(s)
    requires var q := s.lists[EXITING];
             if q == [] then s' == s.(termTimer := false)
             else if !s.needKill then s' == s
             else
               && s' == s.(recs := s'.recs, lists := s'.lists, termTimer := s'.termTimer, killTimer := true)
               && s'.lists == s.lists[EXITING := q[1..]][KILLING := s.lists[KILLING] + [q[0]]]
               && (s'.termTimer <==> s.termTimer && q[1..] != [])
    ensures Timed(s, s', w, w.ToKill?)
  {
  }

  lemma StartTickTimers(s: Sup, fork: int, w: Timer)
    requires Inv(s) && Possible(s, StartTick(fork))
    ensures Timed(s, Step(s, StartTick(fork)), w, w.ToStart?)
  {
    StartTickLaw(s, fork);
    StartedTimers(s, Step(s, StartTick(fork)), w);
  }

  lemma StartedTimers(s: Sup, s': Sup, w: Timer)
    requires Fits(s) && Fits(s') && TimersOk(s)
    requires var q := s.queue;
             if q == [] then s' == s.(startTimer := false)
             else
               s' == s || (&& s' == s.(recs := s'.recs, mngs := s'.mngs, lists := s'.lists, queue := q[1..],
                                       alive := s'.alive, startTimer := s'.startTimer)
                           && s'.lists[EXITING] == s.lists[EXITING] && s'.lists[KILLING] == s.lists[KILLING]
                           && (s'.startTimer <==> s.startTimer && q[1..] != []))
    ensures Timed(s, s', w, w.ToStart?)
  {
  }

  lemma CheckDevChangeTimers(s: Sup, cards: seq<int>, w: Timer)
    requires Inv(s) && !CheckDevChange(s, cards, |cards|).faulted
    ensures Timed(s, CheckDevChange(s, cards, |cards|), w, false)
  {
    var st := PollStates(s, cards);
    PollTimersEnd(st, cards, w);
  }

  lemma PollTimersEnd(st: seq<Sup>, cards: seq<int>, w: Timer)
    requires Polling(st, cards) && Inv(st[0]) && !st[|cards|].faulted
    ensures Fits(st[|cards|]) && Timed(st[0], st[|cards|], w, false)
  {
    PollTimers(st, cards, |cards|, w);
    PollKeeps(st, cards, |cards|);
    PollEnds(st[0], st[|cards|], |cards|, w);
  }

  lemma PollEnds(s: Sup, s': Sup, n: nat, w: Timer)
    requires Fits(s) && Fits(s') && TimersOk(s') && (Armed(s, w) ==> Armed(s', w))
    requires Armed(s', w) && !Armed(s, w) ==> StillAwaited(s', w, n)
    ensures Timed(s, s', w, false)
  {
  }

  // Giving a record back arms the start timer if need be.
  ghost predicate FreedTimed(s: Sup, s': Sup, w: Timer)
    requires Fits(s) && Fits(s')
  {
    && Timed(s, s', w, false) && s.queue <= s'.queue
    && (forall k :: 1 <= k < 4 && s.lists[k] == [] ==> s'.lists[k] == [])
  }

  lemma FreedTimers(s: Sup, m: nat, w: Timer)
    requires Core(s) && m < |s.mngs| && s.mngs[m].child.Some? && s.recs[s.mngs[m].child.value].pid !in s.alive
    ensures FreedTimed(s, Stop(s, m), w)
  {
    StopLaw(s, m);
    StopKeeps(s, m);
    StopArms(s, m);
    FreedTimersAt(s, Stop(s, m), s.mngs[m].child.value, w);
  }

  lemma FreedTimersAt(s: Sup, s': Sup, r: nat, w: Timer)
    requires Fits(s) && r < |s.recs| && s.recs[r].parent.Some? && Freed(s, s', r) && TimersOk(s)
    requires s.queue <= s'.queue && (s'.startTimer <==> s.startTimer || s'.queue != [])
    ensures FreedTimed(s, s', w)
  {
  }

  lemma StopArms(s: Sup, m: nat)
    requires Core(s) && m < |s.mngs| && s.mngs[m].child.Some? && s.recs[s.mngs[m].child.value].pid !in s.alive
    ensures Stop(s, m).startTimer <==> s.startTimer || Stop(s, m).queue != []
  {
    var r := s.mngs[m].child.value;
    assert LinkOk(s, m) && MngBasic(s, m);
    assert s.queue != [] ==> s.startTimer;
    ReleaseFacts(s, r);
    StopCases(s, m);
    if Dynamic(s, m) { RestartArms(Release(s, r).0, m); }
  }

  lemma RestartArms(s: Sup, m: nat)
    requires Fits(s) && Dynamic(s, m) && m != s.self && !s.exitFlag && ETINDEV_NULL <= s.mngs[m].card < |s.drv.types|
    requires s.queue != [] ==> s.startTimer
    ensures Restart(s, m).startTimer <==> s.startTimer || Restart(s, m).queue != []
  {
    RestartCases(s, m);
    OnOffLineFrame(s, m, ETINDEV_NULL);
    if s.mngs[m].card >= 0 { OnOffLineFrame(OnOffLine(s, m, ETINDEV_NULL).0, m, s.mngs[m].card); }
  }

  lemma KillTickTimers(s: Sup, w: Timer)
    requires Inv(s)
    ensures Timed(s, Step(s, KillTick), w, w.ToBury?)
  {
    KillTickLaw(s);
    KillTimeoutCases(s);
    if s.lists[KILLING] == [] {
      KilledTimers(s, s, Step(s, KillTick), w);
    } else {
      HeadTimers(s, s.lists[KILLING][0], w);
      KilledTimers(s, StopParent(s, First(s.lists[KILLING])), Step(s, KillTick), w);
    }
  }

  lemma HeadTimers(s: Sup, r: nat, w: Timer)
    requires Inv(s) && r in s.lists[KILLING]
    ensures r < |s.recs| && FreedTimed(s, StopParent(s, r), w)
  {
    InOneList(s, r, KILLING);
    assert RecOk(s, r) && LinkOk(s, s.recs[r].parent.value);
    StopLaw(s, s.recs[r].parent.value);
    if s.recs[r].pid in s.alive { SameTimers(s, s, w); } else { FreedTimers(s, s.recs[r].parent.value, w); }
  }

  lemma KilledTimers(s: Sup, s1: Sup, s': Sup, w: Timer)
    requires Fits(s) && Fits(s1) && Fits(s') && TimersOk(s) && (s1 == s || FreedTimed(s, s1, w))
    requires s' == if s1.lists[KILLING] == [] then s1.(killTimer := false) else s1
    ensures Timed(s, s', w, w.ToBury?)
  {
  }

  lemma {:induction false} BuryAllTimers(s: Sup, pids: seq<int>, w: Timer)
    requires Inv(s) && Distinct(pids) && forall p :: p in pids ==> p in s.zombies
    ensures FreedTimed(s, BuryAll(s, pids), w)
  {
    if pids == [] {
      SameTimers(s, s, w);
    } else {
      var front, last := pids[..|pids| - 1], pids[|pids| - 1];
      SplitLast(pids);
      BuryAllKeeps(s, front);
      BuryAllTimers(s, front, w);
      BuryTimers(BuryAll(s, front), last, w);
      TimedTwice(s, BuryAll(s, front), Bury(BuryAll(s, front), last), w);
    }
  }

  lemma BuryTimers(s: Sup, pid: int, w: Timer)
    requires Inv(s) && pid in s.zombies
    ensures FreedTimed(s, Bury(s, pid), w)
  {
    var s1 := s.(zombies := s.zombies - {pid});
    ReapedCore(s, s1);
    FindBusyFinds(s1, pid);
    var r := FindBusy(s1, pid).value;
    assert RecOk(s1, r) && LinkOk(s1, s1.recs[r].parent.value);
    FreedTimers(s1, s1.recs[r].parent.value, w);
    ReapedTimers(s, s1, Stop(s1, s1.recs[r].parent.value), w);
  }

  lemma ReapedTimers(s: Sup, s1: Sup, s': Sup, w: Timer)
    requires Fits(s) && Fits(s1) && Fits(s') && s1 == s.(zombies := s1.zombies) && FreedTimed(s1, s', w)
    ensures FreedTimed(s, s', w)
  {
  }

  lemma TimedTwice(s: Sup, s1: Sup, s': Sup, w: Timer)
    requires Fits(s) && Fits(s1) && Fits(s') && TimersOk(s) && TimersOk(s1)
    requires FreedTimed(s, s1, w) && FreedTimed(s1, s', w)
    ensures FreedTimed(s, s', w)
  {
  }

  // ---------- reports ----------

  // What a report does to lists and timers: nothing, or it takes its own manager off the queue, or puts it
  // there, or moves a record to the Exiting list.
  ghost predicate Shifted(s: Sup, s': Sup, slot: int)
    requires |s.lists| == |s'.lists| == 4
  {
    && s'.killTimer == s.killTimer && s'.lists[KILLING] == s.lists[KILLING]
    && if s'.lists[EXITING] == s.lists[EXITING] && s'.termTimer == s.termTimer then
         || (s'.startTimer == s.startTimer && (s'.queue == s.queue || (slot >= 0 && s'.queue == Del(s.queue, slot))))
         || (slot >= 0 && s'.queue == s.queue + [slot as nat] && s'.startTimer)
       else
         && s'.startTimer == s.startTimer && s'.queue == s.queue
         && s.lists[EXITING] <= s'.lists[EXITING] && s'.lists[EXITING] != [] && s'.termTimer
  }

  lemma ReportShifts(s: Sup, slot: int, t: int)
    requires Inv(s) && !HandleCardChange(s, slot, t).faulted
    ensures Shifted(s, HandleCardChange(s, slot, t), slot)
  {
    if !Reportable(s, slot, t) {
      OtherReportLaw(s, slot, t);
    } else if s.mngs[slot].card == ETINDEV_NULL {
      EmptyReportShifts(s, slot, t, Step(s, CardReport(slot, t)));
    } else {
      CardedReportShifts(s, slot, t, Step(s, CardReport(slot, t)));
    }
  }

  lemma EmptyReportShifts(s: Sup, d: nat, t: int, s': Sup)
    requires Inv(s) && Dynamic(s, d) && Reportable(s, d, t) && s.mngs[d].card == ETINDEV_NULL
    requires s' == Step(s, CardReport(d, t))
    ensures Shifted(s, s', d)
  {
    EmptySlotLaw(s, d, t);
    EmptySlotShifts(s, s', d, t);
  }

  lemma CardedReportShifts(s: Sup, d: nat, t: int, s': Sup)
    requires Inv(s) && Dynamic(s, d) && Reportable(s, d, t) && s.mngs[d].card != ETINDEV_NULL
    requires s' == Step(s, CardReport(d, t)) && !s'.faulted
    ensures Shifted(s, s', d)
  {
    ReportFaultsIff(s, d, t);
    CardedSlotLaw(s, d, t);
    CardedSlotShifts(s, s', d);
  }

  lemma EmptySlotShifts(s: Sup, s': Sup, d: nat, t: int)
    requires Fits(s) && Fits(s') && d < |s.mngs| && Dynamic(s, d)
    requires SameConfig(s, s') && CountedOrTaken(s, s', d, t)
    ensures Shifted(s, s', d)
  {
  }

  lemma CardedSlotShifts(s: Sup, s': Sup, d: nat)
    requires Fits(s) && Fits(s') && d < |s.mngs| && Dynamic(s, d)
    requires || OnlyFilter(s, s', d) || LostWaiting(s, s', d) || LostDying(s, s', d)
             || (s.mngs[d].child.Some? && LostRunning(s, s', d, s.mngs[d].child.value))
    ensures Shifted(s, s', d)
  {
  }

  lemma ReportTimers(s: Sup, slot: int, t: int, w: Timer)
    requires Inv(s) && !HandleCardChange(s, slot, t).faulted
    ensures Timed(s, HandleCardChange(s, slot, t), w, false)
  {
    ReportShifts(s, slot, t);
    ShiftedTimers(s, HandleCardChange(s, slot, t), slot, w);
  }

  lemma ShiftedTimers(s: Sup, s': Sup, slot: int, w: Timer)
    requires Fits(s) && Fits(s') && TimersOk(s) && Shifted(s, s', slot)
    ensures Timed(s, s', w, false)
  {
    if slot >= 0 && s'.queue == Del(s.queue, slot) && s'.queue != [] { assert s'.queue[0] in s.queue; }
  }

  // A report puts nobody off a list that a timer serves, except its own manager off the queue.
  ghost predicate KeptWaiting(s: Sup, s': Sup, slot: int)
    requires |s.lists| == |s'.lists| == 4
  {
    && s'.lists[KILLING] == s.lists[KILLING] && s.lists[EXITING] <= s'.lists[EXITING]
    && forall m :: m in s.queue && m != slot ==> m in s'.queue
  }

  lemma ShiftedLists(s: Sup, s': Sup, slot: int)
    requires Fits(s) && Fits(s') && NoDup(s.queue) && Shifted(s, s', slot)
    ensures KeptWaiting(s, s', slot)
  {
    if slot >= 0 { DelMembers(s.queue, slot); }
  }

  // Whoever began to wait in the first n turns of a poll still waits.
  ghost predicate StillAwaited(s: Sup, w: Timer, n: nat)
    requires |s.lists| == 4
  {
    if w.ToStart? then exists d :: 0 <= d < n && d in s.queue else Awaited(s, w)
  }

  ghost predicate PollTimed(s: Sup, s': Sup, w: Timer, n: nat) {
    && Fits(s') && (Armed(s, w) ==> Armed(s', w))
    && (Armed(s', w) && !Armed(s, w) ==> StillAwaited(s', w, n))
  }

  lemma {:induction false} PollTimers(st: seq<Sup>, cards: seq<int>, n: nat, w: Timer)
    requires Polling(st, cards) && Inv(st[0]) && !st[|cards|].faulted && n <= |cards|
    ensures PollTimed(st[0], st[n], w, n)
  {
    if n == 0 {
      assert Core(st[0]);
    } else {
      PollTimers(st, cards, n - 1, w);
      PollTurnTimers(st, cards, n - 1, w);
      PollTimedNext(st[0], st[n - 1], st[n], n - 1, w);
    }
  }

  lemma PollTurnTimers(st: seq<Sup>, cards: seq<int>, k: nat, w: Timer)
    requires Polling(st, cards) && Inv(st[0]) && !st[|cards|].faulted && k < |cards|
    ensures Fits(st[k]) && Fits(st[k + 1]) && TimersOk(st[k]) && NoDup(st[k].queue)
    ensures Timed(st[k], st[k + 1], w, false) && Shifted(st[k], st[k + 1], k)
  {
    PollTurnSafe(st, cards, k);
    assert PollsAt(st, cards, k);
    ReportFaultsIff(st[k], k, cards[k]);
    ReportShifts(st[k], k, cards[k]);
    ShiftedTimers(st[k], st[k + 1], k, w);
  }

  lemma PollTimedNext(s: Sup, s1: Sup, s2: Sup, d: nat, w: Timer)
    requires Fits(s1) && Fits(s2) && TimersOk(s1) && NoDup(s1.queue) && PollTimed(s, s1, w, d)
    requires Timed(s1, s2, w, false) && Shifted(s1, s2, d)
    ensures PollTimed(s, s2, w, d + 1)
  {
    ShiftedLists(s1, s2, d);
    if w.ToStart? && Armed(s2, w) && !Armed(s, w) {
      if Armed(s1, w) {
        var e :| 0 <= e < d && e in s1.queue;
        assert e in s2.queue;
      } else {
        assert s1.queue == [] && s2.queue == [d];
        assert d in s2.queue;
      }
    } else if Armed(s1, w) && !Armed(s, w) {
      assert !w.ToStart? ==> Awaited(s1, w) && Awaited(s2, w);
    }
  }

  // ---------- runs ----------

  // Somebody waited at some time up to n, and no tick of the timer has found nobody waiting since.
  ghost predicate Due(st: seq<Sup>, es: seq<Event>, w: Timer, n: nat)
    requires n < |st| == |es| + 1 && forall k :: 0 <= k < |st| ==> |st[k].lists| == 4
  {
    exists k: nat :: k <= n && Awaited(st[k], w) && forall j: nat :: k <= j < n ==> !FoundIdle(st, es, w, j)
  }

  ghost predicate FoundIdle(st: seq<Sup>, es: seq<Event>, w: Timer, j: nat)
    requires j < |es| && j + 1 < |st| && |st[j + 1].lists| == 4
  {
    Ticks(es[j], w) && !Awaited(st[j + 1], w)
  }

  // Over every run from a state in which a timer is armed exactly if somebody waits, up to a fault: it is
  // armed exactly while it is due.
  lemma {:induction false} TimersDue(st: seq<Sup>, es: seq<Event>, w: Timer, n: nat)
    requires Behavior(st, es) && Inv(st[0]) && (Armed(st[0], w) <==> Awaited(st[0], w)) && n < |st| && !st[n].faulted
    ensures forall k :: 0 <= k < |st| ==> |st[k].lists| == 4
    ensures Armed(st[n], w) <==> Due(st, es, w, n)
  {
    assert forall k :: 0 <= k < |st| ==> Fits(st[k]);
    if n > 0 {
      TimedAt(st, es, w, n - 1);
      TimersDue(st, es, w, n - 1);
      DueNext(st, es, w, n);
    } else {
      DueFirst(st, es, w);
    }
  }

  lemma TimedAt(st: seq<Sup>, es: seq<Event>, w: Timer, k: nat)
    requires Behavior(st, es) && Inv(st[0]) && k < |es| && !st[k + 1].faulted
    ensures Fits(st[k]) && !st[k].faulted && Fits(st[k + 1])
    ensures Timed(st[k], st[k + 1], w, Ticks(es[k], w)) && (Awaited(st[k + 1], w) ==> Armed(st[k + 1], w))
  {
    RunKeeps(st, es, k);
    RunKeeps(st, es, k + 1);
    BehaviorStep(st, es, k);
    TimerLaw(st[k], es[k], w);
    assert TimersOk(st[k + 1]);
  }

  lemma DueFirst(st: seq<Sup>, es: seq<Event>, w: Timer)
    requires |st| == |es| + 1 && forall k :: 0 <= k < |st| ==> |st[k].lists| == 4
    ensures Due(st, es, w, 0) <==> Awaited(st[0], w)
  {
    if Awaited(st[0], w) { assert Due(st, es, w, 0); }
  }

  lemma DueNext(st: seq<Sup>, es: seq<Event>, w: Timer, n: nat)
    requires 0 < n < |st| == |es| + 1 && forall k :: 0 <= k < |st| ==> |st[k].lists| == 4
    ensures Due(st, es, w, n) <==> Awaited(st[n], w) || (Due(st, es, w, n - 1) && !Ticks(es[n - 1], w))
  {
    if Awaited(st[n], w) {
      assert Due(st, es, w, n);
    } else if Due(st, es, w, n - 1) && !Ticks(es[n - 1], w) {
      var k: nat :| k <= n - 1 && Awaited(st[k], w) && forall j: nat :: k <= j < n - 1 ==> !FoundIdle(st, es, w, j);
      assert forall j: nat :: k <= j < n ==> !FoundIdle(st, es, w, j);
    } else {
      NotDue(st, es, w, n);
    }
  }

  lemma NotDue(st: seq<Sup>, es: seq<Event>, w: Timer, n: nat)
    requires 0 < n < |st| == |es| + 1 && forall k :: 0 <= k < |st| ==> |st[k].lists| == 4
    requires !Awaited(st[n], w) && (Ticks(es[n - 1], w) || !Due(st, es, w, n - 1))
    ensures !Due(st, es, w, n)
  {
    forall k: nat | k <= n && Awaited(st[k], w) ensures exists j: nat :: k <= j < n && FoundIdle(st, es, w, j) {
      assert k <= n - 1;
      if Ticks(es[n - 1], w) {
        assert FoundIdle(st, es, w, n - 1);
      } else {
        var j: nat :| k <= j < n - 1 && FoundIdle(st, es, w, j);
      }
    }
  }

  // The program starts that way.
  lemma InitTimers(nSlots: nat, nStatic: nat, drv: Reg, needKill: bool, care: set<int>, self: int, w: Timer)
    requires Shape(drv) && |drv.slots| == nSlots
    ensures var s := Init(nSlots, nStatic, drv, needKill, care, self); Armed(s, w) <==> Awaited(s, w)
  {
  }
}
