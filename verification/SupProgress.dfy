// Bounded progress: the start queue and the Exiting list are served in order.

module SupProgress {
  import opened Wrappers
  import opened Queues
  import opened Registry
  import opened SupModel
  import opened SupInv
  import opened SupSteps
  import opened SupChildren
  import opened SupCards
  import opened SupTraversal
  import opened SupRuns

  function Index(q: seq<nat>, x: nat): nat
    requires x in q
  {
    if q[0] == x then 0 else 1 + Index(q[1..], x)
  }

  lemma {:induction false} IndexAppend(q: seq<nat>, r: seq<nat>, x: nat)
    requires x in q
    ensures Index(q + r, x) == Index(q, x)
  {
    assert (q + r)[1..] == q[1..] + r;
    if q[0] != x { IndexAppend(q[1..], r, x); }
  }

  lemma {:induction false} IndexDel(q: seq<nat>, y: nat, x: nat)
    requires x in q && x != y
    ensures x in Del(q, y) && Index(Del(q, y), x) <= Index(q, x)
  {
    if q[0] != y && q[0] != x {
      IndexDel(q[1..], y, x);
      assert Del(q, y)[1..] == Del(q[1..], y);
    } else if q[0] == x {
      assert Del(q, y)[0] == x;
    }
  }

  lemma PrefixIndex(q: seq<nat>, q': seq<nat>, x: nat)
    requires q <= q' && x in q
    ensures x in q' && Index(q', x) == Index(q, x)
  {
  }

  // ---------- the start queue ----------

  // A start tick whose fork succeeds.
  predicate Starts(e: Event) { e.StartTick? && e.fork > 0 }

  // m is still queued, no further back; or it got a process; or its card is gone.
  ghost predicate Waits(s: Sup, s': Sup, m: nat, served: nat)
    requires Fits(s) && Fits(s') && SameConfig(s, s') && m in s.queue && m < |s.mngs|
  {
    if m in s'.queue then Index(s'.queue, m) + served <= Index(s.queue, m)
    else s'.mngs[m].child.Some? || (Dynamic(s, m) && s'.mngs[m].card == ETINDEV_NULL)
  }

  lemma CardChangeWaits(s: Sup, d: int, t: int, m: nat)
    requires Core(s) && m in s.queue && m < |s.mngs|
    ensures Waits(s, HandleCardChange(s, d, t), m, 0)
  {
    CardChangeLocalised(s, d, t);
    if d >= 0 {
      DelMembers(s.queue, d);
      if m != d { IndexDel(s.queue, d, m); }
      IndexAppend(s.queue, [d as nat], m);
    }
  }

  lemma CardChangeElsewhere(s: Sup, d: int, t: int, m: nat)
    requires Core(s) && m < |s.mngs| && m != d
    ensures var s' := HandleCardChange(s, d, t); s'.mngs[m] == s.mngs[m] && (m in s'.queue <==> m in s.queue)
  {
    CardChangeLocalised(s, d, t);
    if d >= 0 { DelMembers(s.queue, d); }
  }

  lemma {:induction false} PollWaits(st: seq<Sup>, cards: seq<int>, n: nat, m: nat)
    requires Polling(st, cards) && Core(st[0]) && n < |st| && m in st[0].queue && m < |st[0].mngs|
    ensures SameConfig(st[0], st[n]) && Waits(st[0], st[n], m, 0) && (m !in st[n].queue ==> m < n)
  {
    if n > 0 {
      PollKeeps(st, cards, n - 1);
      PollWaits(st, cards, n - 1, m);
      assert PollsAt(st, cards, n - 1);
      PollStepWaits(st[0], st[n - 1], n - 1, cards[n - 1], m);
    }
  }

  lemma CheckDevChangeWaits(s: Sup, cards: seq<int>, m: nat)
    requires Core(s) && m in s.queue && m < |s.mngs|
    ensures Waits(s, CheckDevChange(s, cards, |cards|), m, 0)
  {
    var st := PollStates(s, cards);
    PollWaits(st, cards, |cards|, m);
  }

  lemma PollStepWaits(s: Sup, s1: Sup, d: nat, t: int, m: nat)
    requires Fits(s) && Core(s1) && SameConfig(s, s1) && m in s.queue && m < |s.mngs|
    requires Waits(s, s1, m, 0) && (m !in s1.queue ==> m < d)
    ensures var s2 := HandleCardChange(s1, d, t); Waits(s, s2, m, 0) && (m !in s2.queue ==> m < d + 1)
  {
    if m in s1.queue { CardChangeWaits(s1, d, t, m); }
    if m != d { CardChangeElsewhere(s1, d, t, m); }
  }

  lemma StartWaits(s: Sup, fork: int, m: nat)
    requires Inv(s) && fork != 0 && (fork > 0 ==> fork !in Children(s)) && m in s.queue && m < |s.mngs|
    ensures Waits(s, CheckNeedStart(s, fork), m, if fork > 0 then 1 else 0)
  {
    StartKeeps(s, fork);
  }

  lemma StopWaits(s: Sup, m: nat)
    requires Core(s) && m in s.queue && m < |s.mngs|
    ensures Waits(s, CheckKillTimeout(s), m, 0)
  {
    if s.lists[KILLING] != [] {
      var r := First(s.lists[KILLING]);
      InOneList(s, r, KILLING);
      assert RecOk(s, r);
      StopKeeps(s, s.recs[r].parent.value);
      PrefixIndex(s.queue, CheckKillTimeout(s).queue, m);
    }
  }

  lemma StepWaits(s: Sup, e: Event, m: nat)
    requires Inv(s) && Possible(s, e) && m in s.queue && m < |s.mngs|
    ensures Waits(s, Step(s, e), m, if Starts(e) then 1 else 0)
  {
    match e
    case SpvTick => SpvEnv(s, s.lists[NORMAL]);
    case KillTick => StopWaits(s, m);
    case SigChld(order) => BuryAllKeeps(s, order); PrefixIndex(s.queue, Step(s, e).queue, m);
    case StartTick(fork) => StartWaits(s, fork, m);
    case CardReport(slot, card) => CardChangeWaits(s, slot, card, m);
    case CardPoll(cards) => CheckDevChangeWaits(s, cards, m);
    case _ =>
  }

  function Count(es: seq<Event>, p: Event -> bool): nat {
    if es == [] then 0 else (if p(es[0]) then 1 else 0) + Count(es[1..], p)
  }

  lemma RunStepWaits(st: seq<Sup>, es: seq<Event>, k: nat, m: nat)
    requires Behavior(st, es) && Inv(st[0]) && k < |es| && m in st[k].queue
    ensures SameConfig(st[k], st[k + 1]) && m < |st[k].mngs| && Fits(st[k]) && Fits(st[k + 1])
    ensures Waits(st[k], st[k + 1], m, if Starts(es[k]) then 1 else 0)
  {
    RunKeeps(st, es, k);
    BehaviorStep(st, es, k);
    StepWaits(st[k], es[k], m);
  }

  // On a run without fault, a manager at position p of the queue leaves it within p + 1 start ticks whose
  // forks succeed, whatever happens in between: it gets a process, or its card is pulled.
  lemma {:induction false} ServedWithin(st: seq<Sup>, es: seq<Event>, j: nat, m: nat) returns (k: nat)
    requires Behavior(st, es) && Inv(st[0]) && !st[|es|].faulted && j < |st| && m in st[j].queue
    requires Count(es[j..], Starts) > Index(st[j].queue, m)
    ensures j <= k < |es| && m in st[k].queue && m !in st[k + 1].queue && m < |st[k + 1].mngs|
    ensures st[k + 1].mngs[m].child.Some? || (Dynamic(st[k + 1], m) && st[k + 1].mngs[m].card == ETINDEV_NULL)
    decreases |es| - j
  {
    RunStepWaits(st, es, j, m);
    if m !in st[j + 1].queue {
      k := j;
    } else {
      assert es[j..][1..] == es[j + 1..];
      k := ServedWithin(st, es, j + 1, m);
    }
  }

  // ---------- the Exiting list ----------

  // r is still Exiting, no further back; or it is no longer in the list.
  ghost predicate Drains(s: Sup, s': Sup, r: nat, served: nat)
    requires Fits(s) && Fits(s') && r in s.lists[EXITING]
  {
    r in s'.lists[EXITING] ==> Index(s'.lists[EXITING], r) + served <= Index(s.lists[EXITING], r)
  }

  // A move of another record leaves r where it is or advances it.
  lemma MoveDrains(s: Sup, s': Sup, k: nat, x: nat, r: nat)
    requires Fits(s) && Fits(s') && k < 4 && r in s.lists[EXITING] && s'.lists == Accept(s.lists, k, x)
    requires x == r ==> k != EXITING && NoDup(s.lists[EXITING])
    ensures Drains(s, s', r, 0)
    ensures x != r ==> r in s'.lists[EXITING]
  {
    if x != r {
      IndexDel(s.lists[EXITING], x, r);
      IndexAppend(Del(s.lists[EXITING], x), [x], r);
    } else {
      DelMembers(s.lists[EXITING], x);
    }
  }

  lemma TermTimeoutDrains(s: Sup, r: nat)
    requires Core(s) && r in s.lists[EXITING]
    ensures Drains(s, CheckTermTimeout(s), r, if s.needKill then 1 else 0)
  {
    var x := First(s.lists[EXITING]);
    assert NoDup(s.lists[EXITING]);
    assert Del(s.lists[EXITING], x) == s.lists[EXITING][1..];
  }

  lemma {:induction false} BuryAllDrains(s: Sup, pids: seq<int>, r: nat)
    requires Inv(s) && Distinct(pids) && (forall p :: p in pids ==> p in s.zombies) && r in s.lists[EXITING]
    ensures Drains(s, BuryAll(s, pids), r, 0)
  {
    if pids != [] {
      var front, last := pids[..|pids| - 1], pids[|pids| - 1];
      SplitLast(pids);
      BuryAllKeeps(s, front);
      BuryAllDrains(s, front, r);
      BuryDrains(BuryAll(s, front), last, r);
      DrainsOn(s, BuryAll(s, front), Bury(BuryAll(s, front), last), r);
    }
  }

  lemma DrainsOn(s: Sup, s1: Sup, s': Sup, r: nat)
    requires Fits(s) && Fits(s1) && Fits(s') && r in s.lists[EXITING] && Drains(s, s1, r, 0)
    requires if r in s1.lists[EXITING] then Drains(s1, s', r, 0) else r !in s'.lists[EXITING]
    ensures Drains(s, s', r, 0)
  {
  }

  lemma BuryDrains(s: Sup, pid: int, r: nat)
    requires Inv(s) && pid in s.zombies
    ensures r in s.lists[EXITING] ==> Drains(s, Bury(s, pid), r, 0)
    ensures r !in s.lists[EXITING] ==> r !in Bury(s, pid).lists[EXITING]
  {
    BuryKeeps(s, pid);
    assert NoDup(s.lists[EXITING]);
    if r in s.lists[EXITING] { MoveDrains(s, Bury(s, pid), POOL, FindBusy(s, pid).value, r); }
  }

  lemma CardChangeDrains(s: Sup, d: int, t: int, r: nat)
    requires Core(s) && r in s.lists[EXITING]
    ensures Drains(s, HandleCardChange(s, d, t), r, 0) && r in HandleCardChange(s, d, t).lists[EXITING]
  {
    InOneList(s, r, EXITING);
    CardChangeLocalised(s, d, t);
    var s' := HandleCardChange(s, d, t);
    if s'.lists != s.lists { MoveDrains(s, s', EXITING, s.mngs[d].child.value, r); }
  }

  lemma PollTurnDrains(st: seq<Sup>, cards: seq<int>, k: nat, r: nat)
    requires Polling(st, cards) && k < |cards| && Core(st[k]) && r in st[k].lists[EXITING]
    ensures Fits(st[k + 1]) && r in st[k + 1].lists[EXITING] && Drains(st[k], st[k + 1], r, 0)
  {
    assert PollsAt(st, cards, k);
    CardChangeDrains(st[k], k, cards[k], r);
  }

  lemma {:induction false} PollDrains(st: seq<Sup>, cards: seq<int>, n: nat, r: nat)
    requires Polling(st, cards) && Core(st[0]) && n < |st| && r in st[0].lists[EXITING]
    ensures Fits(st[n]) && r in st[n].lists[EXITING] && Drains(st[0], st[n], r, 0)
  {
    if n > 0 {
      PollDrains(st, cards, n - 1, r);
      PollKeeps(st, cards, n - 1);
      PollTurnDrains(st, cards, n - 1, r);
    }
  }

  lemma CheckDevChangeDrains(s: Sup, cards: seq<int>, r: nat)
    requires Core(s) && r in s.lists[EXITING]
    ensures Drains(s, CheckDevChange(s, cards, |cards|), r, 0)
  {
    var st := PollStates(s, cards);
    PollDrains(st, cards, |cards|, r);
  }

  lemma KillTimeoutDrains(s: Sup, r: nat)
    requires Core(s) && r in s.lists[EXITING]
    ensures Drains(s, CheckKillTimeout(s), r, 0)
  {
    if s.lists[KILLING] != [] {
      var x := First(s.lists[KILLING]);
      InOneList(s, x, KILLING);
      InOneList(s, r, EXITING);
      assert RecOk(s, x);
      StopKeeps(s, s.recs[x].parent.value);
      if CheckKillTimeout(s).lists != s.lists { MoveDrains(s, CheckKillTimeout(s), POOL, x, r); }
    }
  }

  lemma StartDrains(s: Sup, fork: int, r: nat)
    requires Core(s) && r in s.lists[EXITING]
    ensures Drains(s, CheckNeedStart(s, fork), r, 0)
  {
    var s' := CheckNeedStart(s, fork);
    StartTickCases(s, fork);
    if s.queue != [] { StartLists(s, First(s.queue), fork); }
    if s'.lists != s.lists {
      InOneList(s, First(s.lists[POOL]), POOL);
      InOneList(s, r, EXITING);
      MoveDrains(s, s', NORMAL, First(s.lists[POOL]), r);
    }
  }

  predicate IsTermTick(e: Event) { e.TermTick? }

  lemma StepDrains(s: Sup, e: Event, r: nat)
    requires Inv(s) && Possible(s, e) && s.needKill && r in s.lists[EXITING]
    ensures Drains(s, Step(s, e), r, if e.TermTick? then 1 else 0)
  {
    match e
    case SpvTick => CheckLiveStateVisits(s);
    case TermTick => TermTimeoutDrains(s, r);
    case KillTick => KillTimeoutDrains(s, r);
    case SigChld(order) => BuryAllDrains(s, order, r);
    case StartTick(fork) => StartDrains(s, fork, r);
    case CardReport(slot, card) => CardChangeDrains(s, slot, card, r);
    case CardPoll(cards) => CheckDevChangeDrains(s, cards, r);
    case _ =>
  }

  ghost predicate ExitingAt(st: seq<Sup>, k: nat, r: nat) {
    k < |st| && |st[k].lists| == 4 && r in st[k].lists[EXITING]
  }

  lemma RunStepDrains(st: seq<Sup>, es: seq<Event>, k: nat, r: nat)
    requires Behavior(st, es) && Inv(st[0]) && st[0].needKill && k < |es| && ExitingAt(st, k, r)
    ensures ExitingAt(st, k + 1, r) ==>
              Index(st[k + 1].lists[EXITING], r) + (if es[k].TermTick? then 1 else 0) <= Index(st[k].lists[EXITING], r)
  {
    RunKeeps(st, es, k);
    BehaviorStep(st, es, k);
    StepDrains(st[k], es[k], r);
  }

  lemma NotExiting(st: seq<Sup>, es: seq<Event>, k: nat, r: nat)
    requires Behavior(st, es) && Inv(st[0]) && k < |es| && !st[k + 1].faulted
    requires ExitingAt(st, k, r) && !ExitingAt(st, k + 1, r)
    ensures r < |st[k + 1].recs| && st[k + 1].recs[r].state != Exiting
  {
    RunKeeps(st, es, k);
    RunKeeps(st, es, k + 1);
    assert RecOk(st[k + 1], r);
  }

  // With killing enabled, on a run without fault, a record at position p of the Exiting list has left it
  // within p + 1 term ticks.
  lemma {:induction false} ExitsWithin(st: seq<Sup>, es: seq<Event>, j: nat, r: nat) returns (k: nat)
    requires Behavior(st, es) && Inv(st[0]) && !st[|es|].faulted && st[0].needKill && ExitingAt(st, j, r)
    requires Count(es[j..], IsTermTick) > Index(st[j].lists[EXITING], r)
    ensures j <= k < |es| && r < |st[k + 1].recs| && st[k + 1].recs[r].state != Exiting
    decreases |es| - j
  {
    RunStepDrains(st, es, j, r);
    if ExitingAt(st, j + 1, r) {
      assert es[j..][1..] == es[j + 1..];
      k := ExitsWithin(st, es, j + 1, r);
    } else {
      k := j;
      NoFaultBefore(st, es, j + 1);
      NotExiting(st, es, j, r);
    }
  }
}
