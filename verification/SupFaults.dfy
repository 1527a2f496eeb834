// The one fault of the supervisor: a report makes it take a manager off the start queue that is not in
// it. When a step faults, how a manager gets into that position, and when a run comes to it.

module SupFaults {
  import opened Wrappers
  import opened Queues
  import opened Registry
  import opened SupModel
  import opened SupInv
  import opened SupSteps
  import opened SupChildren
  import opened SupCards
  import opened SupTraversal
  import opened SupRuns
  import opened SupHistory
  import opened SupProgress

  // ---------- which steps fault ----------

  // The event reports for slot d something other than its card.
  ghost predicate ReportsOther(s: Sup, e: Event, d: nat) {
    d < |s.mngs| && ReportOf(s, e, d) != [] && ReportOf(s, e, d)[0] != s.mngs[d].card
  }

  lemma PollTurnElsewhere(st: seq<Sup>, cards: seq<int>, k: nat, d: nat)
    requires Polling(st, cards) && k < |cards| && Core(st[k]) && d < |st[k].mngs| && d != k
    ensures SameConfig(st[k], st[k + 1]) && st[k + 1].mngs[d] == st[k].mngs[d]
    ensures d in st[k + 1].queue <==> d in st[k].queue
  {
    assert PollsAt(st, cards, k);
    CardChangeElsewhere(st[k], k, cards[k], d);
  }

  // Slot d's turn in a poll comes with its manager untouched.
  lemma {:induction false} PollUntouched(st: seq<Sup>, cards: seq<int>, n: nat, d: nat)
    requires Polling(st, cards) && Core(st[0]) && n <= d && n < |st| && d < |st[0].mngs|
    ensures SameConfig(st[0], st[n]) && st[n].mngs[d] == st[0].mngs[d] && (d in st[n].queue <==> d in st[0].queue)
  {
    if n > 0 {
      PollUntouched(st, cards, n - 1, d);
      PollKeeps(st, cards, n - 1);
      PollTurnElsewhere(st, cards, n - 1, d);
    }
  }

  lemma PollTurnFaultsIff(st: seq<Sup>, cards: seq<int>, k: nat)
    requires Polling(st, cards) && Core(st[0]) && k < |cards|
    ensures st[k + 1].faulted <==> st[k].faulted || Faults(st[0], k, cards[k])
  {
    assert PollsAt(st, cards, k);
    ReportFaultsIff(st[k], k, cards[k]);
    PollKeeps(st, cards, k);
    if k < |st[0].mngs| { PollUntouched(st, cards, k, k); }
  }

  lemma {:induction false} PollFaultsIff(st: seq<Sup>, cards: seq<int>, n: nat)
    requires Polling(st, cards) && Core(st[0]) && n < |st|
    ensures st[n].faulted <==> st[0].faulted || exists d :: 0 <= d < n && Faults(st[0], d, cards[d])
  {
    if n > 0 {
      PollFaultsIff(st, cards, n - 1);
      PollTurnFaultsIff(st, cards, n - 1);
    }
  }

  lemma {:induction false} FaultStays(st: seq<Sup>, cards: seq<int>, j: nat, k: nat)
    requires Polling(st, cards) && j <= k < |st| && st[j].faulted
    ensures st[k].faulted
  {
    if j < k {
      FaultStays(st, cards, j, k - 1);
      assert PollsAt(st, cards, k - 1);
      ReportFaultsIff(st[k - 1], k - 1, cards[k - 1]);
    }
  }

  // In a poll that does not end in a fault, every turn comes in order and is without fault.
  lemma PollTurnSafe(st: seq<Sup>, cards: seq<int>, k: nat)
    requires Polling(st, cards) && Inv(st[0]) && k < |cards| && !st[|cards|].faulted
    ensures Inv(st[k]) && !Faults(st[k], k, cards[k])
  {
    PollKeeps(st, cards, k);
    assert PollsAt(st, cards, k);
    ReportFaultsIff(st[k], k, cards[k]);
    if st[k + 1].faulted { FaultStays(st, cards, k + 1, |cards|); }
  }

  lemma OthersNeverFault(s: Sup, e: Event)
    requires Inv(s) && Possible(s, e) && !e.CardReport? && !e.CardPoll?
    ensures !Step(s, e).faulted
  {
    match e
    case SigChld(order) => BuryAllKeeps(s, order);
    case StartTick(fork) => StartKeeps(s, fork);
    case KillTick => KillTimeoutKeeps(s);
    case DriverEvent(ev) => DriverEventKeeps(s, e);
    case Dies(pid) =>
    case _ => TickKeeps(s, e);
  }

  // A step faults exactly if it reports, for a slot whose manager has a card but is neither attached nor
  // queued, something other than that card.
  lemma StepFaultsIff(s: Sup, e: Event)
    requires Inv(s) && Possible(s, e)
    ensures Step(s, e).faulted <==> exists d: nat :: Dropped(s, d) && ReportsOther(s, e, d)
  {
    match e
    case CardReport(slot, t) => ReportStepFaultsIff(s, slot, t);
    case CardPoll(cards) => PollStepFaultsIff(s, cards);
    case _ =>
      OthersNeverFault(s, e);
      assert forall d: nat :: ReportOf(s, e, d) == [];
  }

  lemma ReportStepFaultsIff(s: Sup, slot: int, t: int)
    requires Fits(s) && !s.faulted
    ensures HandleCardChange(s, slot, t).faulted <==>
              exists d: nat :: Dropped(s, d) && ReportsOther(s, CardReport(slot, t), d)
  {
    ReportFaultsIff(s, slot, t);
    if Faults(s, slot, t) { assert Dropped(s, slot) && ReportsOther(s, CardReport(slot, t), slot); }
  }

  lemma PollStepFaultsIff(s: Sup, cards: seq<int>)
    requires Core(s) && !s.faulted
    ensures CheckDevChange(s, cards, |cards|).faulted <==>
              exists d: nat :: Dropped(s, d) && ReportsOther(s, CardPoll(cards), d)
  {
    var st := PollStates(s, cards);
    PollFaultsIff(st, cards, |cards|);
    forall d: nat
      ensures Dropped(s, d) && ReportsOther(s, CardPoll(cards), d) <==> d < |cards| && Faults(s, d, cards[d])
    {
    }
  }

  // ---------- how a manager gets dropped ----------

  // Between s and s' the process of slot d was reaped and bringing its card on line again was refused.
  ghost predicate Refused(s: Sup, s': Sup, d: nat) {
    && Fits(s) && d < |s'.mngs| && Dynamic(s, d) && s.mngs[d].child.Some? && s'.mngs[d].child.None?
    && 0 <= s.mngs[d].card < |s.drv.types| && !OnlineSucceeds(s, d, s.mngs[d].card)
  }

  // From s to s' a manager becomes dropped only by a refusal, and stays so, keeping its card.
  ghost predicate Falls(s: Sup, s': Sup, d: nat) {
    && (Dropped(s', d) <==> Dropped(s, d) || Refused(s, s', d))
    && (Dropped(s', d) ==> d < |s.mngs| && d < |s'.mngs| && s'.mngs[d].card == s.mngs[d].card)
  }

  // The same while processes are reaped and nothing else happens.
  ghost predicate FallsReaping(s: Sup, s': Sup, d: nat)
    requires Fits(s) && Fits(s') && SameConfig(s, s') && Dynamic(s, d)
  {
    && Falls(s, s', d) && s'.mngs[d].card == s.mngs[d].card && (s.mngs[d].child.None? ==> s'.mngs[d].child.None?)
    && s'.drv.types == s.drv.types && s'.drv.cbRet == s.drv.cbRet
  }

  lemma ReapingTwice(s: Sup, s1: Sup, s': Sup, d: nat)
    requires Fits(s) && Fits(s1) && Fits(s') && SameConfig(s, s1) && SameConfig(s1, s') && Dynamic(s, d)
    requires FallsReaping(s, s1, d) && FallsReaping(s1, s', d)
    ensures FallsReaping(s, s', d)
  {
  }

  lemma RestartFacts(s: Sup, m: nat)
    requires Fits(s) && Dynamic(s, m) && m != s.self && !s.exitFlag && ETINDEV_NULL <= s.mngs[m].card < |s.drv.types|
    ensures var c, s' := s.mngs[m].card, Restart(s, m);
            && s'.queue == (if c != ETINDEV_NULL && OnlineSucceeds(s, m, c) then s.queue + [m] else s.queue)
            && (forall d :: 0 <= d < |s.mngs| ==>
                  s'.mngs[d].card == s.mngs[d].card && s'.mngs[d].child == s.mngs[d].child)
            && s'.drv.types == s.drv.types && s'.drv.cbRet == s.drv.cbRet
  {
    RestartCases(s, m);
    OnOffLineFrame(s, m, ETINDEV_NULL);
    if s.mngs[m].card != ETINDEV_NULL { OnOffLineFrame(OnOffLine(s, m, ETINDEV_NULL).0, m, s.mngs[m].card); }
  }

  lemma StopFalls(s: Sup, m: nat, d: nat)
    requires Core(s) && m < |s.mngs| && s.mngs[m].child.Some? && Dynamic(s, d)
    ensures FallsReaping(s, Stop(s, m), d)
  {
    var r := s.mngs[m].child.value;
    assert LinkOk(s, m) && MngBasic(s, m) && RecOk(s, r);
    ReleaseFacts(s, r);
    StopCases(s, m);
    if s.recs[r].pid !in s.alive {
      var s1 := Release(s, r).0;
      if Dynamic(s, m) {
        RestartFacts(s1, m);
        ReleasedFalls(s, s1, Restart(s1, m), m, d);
      }
    }
  }

  lemma ReleasedFalls(s: Sup, s1: Sup, s': Sup, m: nat, d: nat)
    requires Fits(s) && Fits(s1) && Fits(s') && SameConfig(s, s1) && SameConfig(s1, s') && Dynamic(s, m)
    requires Dynamic(s, d)
    requires s.mngs[m].child.Some? && m !in s.queue && ETINDEV_NULL <= s.mngs[m].card < |s.drv.types|
    requires s1.mngs == s.mngs[m := s.mngs[m].(child := None)] && s1.drv == s.drv && s1.queue == s.queue
    requires var c := s.mngs[m].card;
             s'.queue == if c != ETINDEV_NULL && OnlineSucceeds(s1, m, c) then s1.queue + [m] else s1.queue
    requires s'.mngs[d].card == s1.mngs[d].card && s'.mngs[d].child == s1.mngs[d].child
    requires s'.drv.types == s1.drv.types && s'.drv.cbRet == s1.drv.cbRet
    ensures FallsReaping(s, s', d)
  {
  }

  lemma BuryFalls(s: Sup, pid: int, d: nat)
    requires Inv(s) && pid in s.zombies && Dynamic(s, d)
    ensures FallsReaping(s, Bury(s, pid), d)
  {
    var s1 := s.(zombies := s.zombies - {pid});
    ReapedCore(s, s1);
    FindBusyFinds(s1, pid);
    var r := FindBusy(s1, pid).value;
    assert RecOk(s1, r);
    StopFalls(s1, s1.recs[r].parent.value, d);
    ReapingTwice(s, s1, Stop(s1, s1.recs[r].parent.value), d);
  }

  lemma {:induction false} BuryAllFalls(s: Sup, pids: seq<int>, d: nat)
    requires Inv(s) && Distinct(pids) && (forall p :: p in pids ==> p in s.zombies) && Dynamic(s, d)
    ensures FallsReaping(s, BuryAll(s, pids), d)
  {
    if pids != [] {
      var front, last := pids[..|pids| - 1], pids[|pids| - 1];
      SplitLast(pids);
      BuryAllKeeps(s, front);
      BuryAllFalls(s, front, d);
      BuryFalls(BuryAll(s, front), last, d);
      ReapingTwice(s, BuryAll(s, front), Bury(BuryAll(s, front), last), d);
    }
  }

  lemma KillTimeoutFalls(s: Sup, d: nat)
    requires Core(s) && Dynamic(s, d)
    ensures Falls(s, CheckKillTimeout(s), d)
  {
    KillTimeoutCases(s);
    if s.lists[KILLING] != [] {
      var r := First(s.lists[KILLING]);
      InOneList(s, r, KILLING);
      assert RecOk(s, r);
      StopFalls(s, s.recs[r].parent.value, d);
    }
  }

  lemma StartFalls(s: Sup, fork: int, d: nat)
    requires Inv(s) && fork != 0 && (fork > 0 ==> fork !in Children(s)) && Dynamic(s, d)
    ensures Falls(s, CheckNeedStart(s, fork), d)
  {
    StartKeeps(s, fork);
    if s.queue == [] {
      StartTickCases(s, fork);
    } else if fork > 0 {
      StartTickMngs(s, fork);
      HeadStarted(s, CheckNeedStart(s, fork), d);
    }
  }

  lemma HeadStarted(s: Sup, s': Sup, d: nat)
    requires Fits(s) && Fits(s') && SameConfig(s, s') && Dynamic(s, d) && s.queue != [] && NoDup(s.queue)
    requires s'.queue == s.queue[1..] && s'.mngs[First(s.queue)].child.Some?
    requires var m := First(s.queue); s'.mngs == s.mngs[m := s.mngs[m].(child := s'.mngs[m].child)]
    ensures Falls(s, s', d)
  {
    assert s.queue == [First(s.queue)] + s.queue[1..];
  }

  // A start tick touches the manager at the head of the queue only, and not its card.
  lemma StartTickMngs(s: Sup, fork: int)
    requires Inv(s) && fork > 0 && fork !in Children(s) && s.queue != []
    ensures var m, ms := First(s.queue), CheckNeedStart(s, fork).mngs;
            ms == s.mngs[m := s.mngs[m].(child := ms[m].child)] && ms[m].child.Some?
  {
    var m := First(s.queue);
    assert MngBasic(s, m);
    PoolNeverDry(s, m);
    StartTickCases(s, fork);
    StartCases(s, m, fork);
  }

  lemma ReportFalls(s: Sup, slot: int, t: int, d: nat)
    requires Core(s) && Dynamic(s, d) && !HandleCardChange(s, slot, t).faulted
    ensures Falls(s, HandleCardChange(s, slot, t), d)
    ensures HandleCardChange(s, slot, t).mngs[d].child == s.mngs[d].child
  {
    CardChangeLocalised(s, slot, t);
    if slot == d {
      OwnReportFalls(s, d, t);
    } else {
      CardChangeElsewhere(s, slot, t, d);
    }
  }

  lemma OwnReportFalls(s: Sup, d: nat, t: int)
    requires Fits(s) && Dynamic(s, d) && !HandleCardChange(s, d, t).faulted
    requires HandleCardChange(s, d, t).mngs[d].child == s.mngs[d].child
    ensures Falls(s, HandleCardChange(s, d, t), d)
  {
    ReportFaultsIff(s, d, t);
    ReportCases(s, d, t);
    if Reportable(s, d, t) && t != s.mngs[d].card {
      if s.mngs[d].card != ETINDEV_NULL { GoneCardless(s, d); } else { FilteredQueued(s, d, t); }
    }
  }

  lemma GoneCardless(s: Sup, d: nat)
    requires Fits(s) && Dynamic(s, d)
    ensures CardGone(s, d).mngs[d].card == ETINDEV_NULL
  {
    CardGoneCases(s, d);
    OnOffLineFrame(DelFrom2Start(Uncarded(s, d), d), d, ETINDEV_NULL);
  }

  lemma FilteredQueued(s: Sup, d: nat, t: int)
    requires Fits(s) && Dynamic(s, d) && s.mngs[d].card == ETINDEV_NULL
    ensures FilterCard(s, d, t).mngs[d].card == ETINDEV_NULL || d in FilterCard(s, d, t).queue
  {
    FilterCardCases(s, d, t);
    OnOffLineFrame(Carded(s, d, t), d, t);
  }

  lemma {:induction false} PollFalls(st: seq<Sup>, cards: seq<int>, n: nat, d: nat)
    requires Polling(st, cards) && Core(st[0]) && n < |st| && Dynamic(st[0], d) && !st[n].faulted
    ensures SameConfig(st[0], st[n]) && Falls(st[0], st[n], d) && st[n].mngs[d].child == st[0].mngs[d].child
  {
    PollKeeps(st, cards, n);
    if n > 0 {
      PollKeeps(st, cards, n - 1);
      PollTurnFalls(st, cards, n - 1, d);
      PollFalls(st, cards, n - 1, d);
      NothingReaped(st[0], st[n - 1], st[n], d);
    }
  }

  lemma PollTurnFalls(st: seq<Sup>, cards: seq<int>, k: nat, d: nat)
    requires Polling(st, cards) && k < |cards| && Core(st[k]) && Dynamic(st[k], d) && !st[k + 1].faulted
    ensures !st[k].faulted && SameConfig(st[k], st[k + 1])
    ensures Falls(st[k], st[k + 1], d) && st[k + 1].mngs[d].child == st[k].mngs[d].child
  {
    assert PollsAt(st, cards, k);
    ReportFaultsIff(st[k], k, cards[k]);
    ReportFalls(st[k], k, cards[k], d);
  }

  lemma NothingReaped(s: Sup, s1: Sup, s': Sup, d: nat)
    requires Fits(s) && Fits(s1) && Fits(s') && SameConfig(s, s1) && SameConfig(s1, s') && Dynamic(s, d)
    requires Falls(s, s1, d) && Falls(s1, s', d) && s1.mngs[d].child == s.mngs[d].child == s'.mngs[d].child
    ensures Falls(s, s', d)
  {
  }

  lemma StepFalls(s: Sup, e: Event, d: nat)
    requires Inv(s) && Possible(s, e) && Dynamic(s, d) && !Step(s, e).faulted
    ensures Falls(s, Step(s, e), d)
  {
    match e
    case SigChld(order) => BuryAllFalls(s, order, d);
    case StartTick(fork) => StartFalls(s, fork, d);
    case KillTick => KillTimeoutFalls(s, d);
    case CardReport(slot, t) => ReportFalls(s, slot, t, d);
    case CardPoll(cards) =>
      var st := PollStates(s, cards);
      PollFalls(st, cards, |cards|, d);
    case _ => TickMngs(s, e);
  }

  // ---------- which runs fault ----------

  // Event j of the run reaped the process of slot d and was refused its card.
  ghost predicate RefusedAt(st: seq<Sup>, j: nat, d: nat)
    requires j + 1 < |st|
  {
    Refused(st[j], st[j + 1], d)
  }

  lemma RunStepFalls(st: seq<Sup>, es: seq<Event>, k: nat, d: nat)
    requires Behavior(st, es) && Inv(st[0]) && Dynamic(st[0], d) && k < |es| && !st[k + 1].faulted
    ensures Falls(st[k], st[k + 1], d)
  {
    RunKeeps(st, es, k);
    BehaviorStep(st, es, k);
    StepFalls(st[k], es[k], d);
  }

  ghost predicate FallsAt(st: seq<Sup>, n: nat, d: nat)
    requires n + 1 < |st|
  {
    Falls(st[n], st[n + 1], d)
  }

  ghost predicate FallsUpTo(st: seq<Sup>, k: nat, d: nat)
    requires k < |st|
  {
    forall n: nat {:trigger FallsAt(st, n, d)} :: n < k ==> FallsAt(st, n, d)
  }

  lemma {:induction false} DroppedStays(st: seq<Sup>, j: nat, k: nat, d: nat)
    requires j < k < |st| && FallsUpTo(st, k, d) && RefusedAt(st, j, d)
    ensures Dropped(st[k], d) && d < |st[j].mngs| && st[k].mngs[d].card == st[j].mngs[d].card
  {
    assert FallsAt(st, k - 1, d);
    if j < k - 1 { DroppedStays(st, j, k - 1, d); }
  }

  lemma {:induction false} DroppedFrom(st: seq<Sup>, k: nat, d: nat) returns (j: nat)
    requires k < |st| && FallsUpTo(st, k, d) && !Dropped(st[0], d) && Dropped(st[k], d)
    ensures j < k && RefusedAt(st, j, d)
  {
    assert FallsAt(st, k - 1, d);
    if Dropped(st[k - 1], d) { j := DroppedFrom(st, k - 1, d); } else { j := k - 1; }
  }

  // A manager is dropped exactly if its card was refused some time before, and it still has that card.
  lemma DroppedSince(st: seq<Sup>, es: seq<Event>, k: nat, d: nat)
    requires Behavior(st, es) && Inv(st[0]) && Agrees(st[0]) && Dynamic(st[0], d) && k < |st| && !st[k].faulted
    ensures Dropped(st[k], d) <==> exists j: nat :: j < k && RefusedAt(st, j, d)
    ensures forall j: nat :: j < k && RefusedAt(st, j, d) ==>
              d < |st[j].mngs| && d < |st[k].mngs| && st[k].mngs[d].card == st[j].mngs[d].card
  {
    assert MngBasic(st[0], d) && MngDriver(st[0], d);
    forall n: nat | n < k ensures FallsAt(st, n, d) {
      if n + 1 < k { assert StepAt(st, es, n + 1); }
      RunStepFalls(st, es, n, d);
    }
    forall j: nat | j < k && RefusedAt(st, j, d)
      ensures Dropped(st[k], d) && d < |st[j].mngs| && st[k].mngs[d].card == st[j].mngs[d].card
    {
      DroppedStays(st, j, k, d);
    }
    if Dropped(st[k], d) { var j := DroppedFrom(st, k, d); }
  }

  // Over every run that begins with managers and driver in agreement: event k makes the program fault
  // exactly if some earlier event reaped the process of a slot and the driver refused to bring its card on
  // line again, and event k reports for that slot anything but the card. So a run faults at the first
  // such report, and a run without refusals never does.
  lemma RunFaultsIff(st: seq<Sup>, es: seq<Event>, k: nat)
    requires Behavior(st, es) && Inv(st[0]) && Agrees(st[0]) && k < |es|
    ensures st[k + 1].faulted <==>
              exists d: nat, j: nat :: j < k && RefusedAt(st, j, d) && ReportsOther(st[k], es[k], d)
  {
    RunKeeps(st, es, k);
    BehaviorStep(st, es, k);
    StepFaultsIff(st[k], es[k]);
    forall d: nat | Dynamic(st[0], d)
      ensures Dropped(st[k], d) <==> exists j: nat :: j < k && RefusedAt(st, j, d)
    {
      DroppedSince(st, es, k, d);
    }
    forall d: nat, j: nat | j < k && RefusedAt(st, j, d) ensures Dynamic(st[0], d) { RunKeeps(st, es, j); }
  }
}
