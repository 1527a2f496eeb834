// Bounded progress of killing: dead processes leave the Killing list in order.

module SupKilling {
  import opened Wrappers
  import opened Queues
  import opened Registry
  import opened SupModel
  import opened SupInv
  import opened SupSteps
  import opened SupChildren
  import opened SupCards
  import opened SupTraversal
  import opened SupRuns
  import opened SupEscalation
  import opened SupProgress
  import opened SupFaults
  import opened SupTicks
  import opened SupTimers

  // r and what is before it in q
  ghost predicate UpTo(q: seq<nat>, r: nat, x: nat)
    requires r in q
  {
    x in q && Index(q, x) <= Index(q, r)
  }

  // If r is still there, nobody got before it.
  ghost predicate InOrder(q: seq<nat>, q': seq<nat>, r: nat)
    requires r in q
  {
    r in q' ==>
      && Index(q', r) <= Index(q, r)
      && forall x {:trigger x in q'} :: x in q' && UpTo(q', r, x) ==> UpTo(q, r, x)
  }

  lemma {:induction false} IndexAt(q: seq<nat>, x: nat)
    requires x in q
    ensures Index(q, x) < |q| && q[Index(q, x)] == x && x !in q[..Index(q, x)]
  {
    if q[0] != x {
      IndexAt(q[1..], x);
      assert q[..Index(q, x)] == [q[0]] + q[1..][..Index(q[1..], x)];
    }
  }

  lemma SameOrder(q: seq<nat>, r: nat)
    requires r in q
    ensures InOrder(q, q, r)
  {
  }

  lemma AppendOrder(q: seq<nat>, tail: seq<nat>, r: nat)
    requires r in q
    ensures InOrder(q, q + tail, r)
  {
    IndexAppend(q, tail, r);
    forall x | x in q + tail && UpTo(q + tail, r, x) ensures UpTo(q, r, x) {
      IndexAt(q + tail, x);
      IndexAt(q, r);
      assert (q + tail)[Index(q + tail, x)] == q[Index(q + tail, x)];
      IndexAppend(q, tail, x);
    }
  }

  // An element other than y, with or without y in the list
  lemma {:induction false} DelOrder(q: seq<nat>, y: nat, r: nat)
    requires r in q && NoDup(q)
    ensures InOrder(q, Del(q, y), r)
  {
    DelMembers(q, y);
    if r in Del(q, y) {
      IndexDel(q, y, r);
      forall x | x in Del(q, y) && UpTo(Del(q, y), r, x) ensures UpTo(q, r, x) { PairDel(q, y, r, x); }
    }
  }

  // Taking y out keeps the order of any two others.
  lemma {:induction false} PairDel(q: seq<nat>, y: nat, r: nat, x: nat)
    requires NoDup(q) && r in q && x in q && r != y && x != y
    ensures r in Del(q, y) && x in Del(q, y)
    ensures Index(Del(q, y), x) <= Index(Del(q, y), r) ==> Index(q, x) <= Index(q, r)
  {
    DelMembers(q, y);
    if q[0] != y && q[0] != r && q[0] != x {
      NoDupTail(q);
      PairDel(q[1..], y, r, x);
      assert Del(q, y)[1..] == Del(q[1..], y);
    } else if q[0] == y {
      assert Del(q, y) == q[1..];
    } else {
      assert Del(q, y)[0] == q[0];
    }
  }

  lemma NoDupTail(q: seq<nat>)
    requires NoDup(q) && q != []
    ensures NoDup(q[1..])
  {
  }

  lemma OrderTwice(q: seq<nat>, q1: seq<nat>, q2: seq<nat>, r: nat)
    requires r in q && InOrder(q, q1, r) && (r in q1 ==> InOrder(q1, q2, r)) && (r !in q1 ==> r !in q2)
    ensures InOrder(q, q2, r)
  {
    if r in q2 {
      forall x | x in q2 && UpTo(q2, r, x) ensures UpTo(q, r, x) { assert UpTo(q1, r, x) && x in q1; }
    }
  }

  // ---------- steps ----------

  // The list of records being killed, from s to s'
  ghost predicate InTurn(s: Sup, s': Sup, r: nat)
    requires Fits(s) && Fits(s') && r in s.lists[KILLING]
  {
    InOrder(s.lists[KILLING], s'.lists[KILLING], r)
  }

  lemma StepServed(s: Sup, e: Event, r: nat)
    requires Inv(s) && Possible(s, e) && !Step(s, e).faulted && r in s.lists[KILLING]
    ensures InTurn(s, Step(s, e), r)
  {
    SameOrder(s.lists[KILLING], r);
    match e
    case SpvTick => SpvServed(s, r);
    case TermTick => TermTickServed(s, r);
    case KillTick => KillTickServed(s, r);
    case SigChld(order) => BuryAllServed(s, order, r);
    case StartTick(fork) => StartTickLaw(s, fork);
    case CardReport(slot, card) => ReportShifts(s, slot, card);
    case CardPoll(cards) => CheckDevChangeServed(s, cards);
    case HelloAck(pid) => AckCases(s, pid, FindObj(s.recs, s.lists[NORMAL], pid));
    case _ =>
  }

  lemma SpvServed(s: Sup, r: nat)
    requires Inv(s) && r in s.lists[KILLING]
    ensures InTurn(s, Step(s, SpvTick), r)
  {
    CheckLiveStateVisits(s);
    SameOrder(s.lists[KILLING], r);
    AppendOrder(s.lists[KILLING], Select(s.recs, s.lists[NORMAL], false), r);
    assert s.lists[KILLING] + [] == s.lists[KILLING];
  }

  lemma TermTickServed(s: Sup, r: nat)
    requires Inv(s) && r in s.lists[KILLING]
    ensures InTurn(s, Step(s, TermTick), r)
  {
    TermTickLaw(s);
    SameOrder(s.lists[KILLING], r);
    if s.lists[EXITING] != [] { AppendOrder(s.lists[KILLING], [s.lists[EXITING][0]], r); }
  }

  lemma KillTickServed(s: Sup, r: nat)
    requires Inv(s) && r in s.lists[KILLING]
    ensures InTurn(s, Step(s, KillTick), r)
  {
    var q := s.lists[KILLING];
    KillTickLaw(s);
    SameOrder(q, r);
    assert NoDup(q) && Del(q, q[0]) == q[1..];
    DelOrder(q, q[0], r);
  }

  lemma {:induction false} BuryAllServed(s: Sup, pids: seq<int>, r: nat)
    requires Inv(s) && Distinct(pids) && (forall p :: p in pids ==> p in s.zombies) && r in s.lists[KILLING]
    ensures InTurn(s, BuryAll(s, pids), r)
  {
    if pids == [] {
      SameOrder(s.lists[KILLING], r);
    } else {
      var front, last := pids[..|pids| - 1], pids[|pids| - 1];
      SplitLast(pids);
      BuryAllKeeps(s, front);
      BuryAllServed(s, front, r);
      BuryServed(BuryAll(s, front), last, r);
      OrderTwice(s.lists[KILLING], BuryAll(s, front).lists[KILLING], Bury(BuryAll(s, front), last).lists[KILLING], r);
    }
  }

  lemma BuryServed(s: Sup, pid: int, r: nat)
    requires Inv(s) && pid in s.zombies
    ensures if r in s.lists[KILLING] then InTurn(s, Bury(s, pid), r) else r !in Bury(s, pid).lists[KILLING]
  {
    BuryKeeps(s, pid);
    assert NoDup(s.lists[KILLING]);
    var x := FindBusy(s, pid).value;
    assert Bury(s, pid).lists[KILLING] == Del(s.lists[KILLING], x);
    DelMembers(s.lists[KILLING], x);
    if r in s.lists[KILLING] { DelOrder(s.lists[KILLING], x, r); }
  }

  lemma CheckDevChangeServed(s: Sup, cards: seq<int>)
    requires Inv(s) && !CheckDevChange(s, cards, |cards|).faulted
    ensures CheckDevChange(s, cards, |cards|).lists[KILLING] == s.lists[KILLING]
  {
    var st := PollStates(s, cards);
    PollServedEnd(st, cards);
  }

  lemma PollServedEnd(st: seq<Sup>, cards: seq<int>)
    requires Polling(st, cards) && Inv(st[0]) && !st[|cards|].faulted
    ensures Fits(st[0]) && Fits(st[|cards|]) && st[|cards|].lists[KILLING] == st[0].lists[KILLING]
  {
    PollServed(st, cards, |cards|);
  }

  lemma {:induction false} PollServed(st: seq<Sup>, cards: seq<int>, n: nat)
    requires Polling(st, cards) && Inv(st[0]) && !st[|cards|].faulted && n <= |cards|
    ensures Fits(st[n]) && st[n].lists[KILLING] == st[0].lists[KILLING]
  {
    if n == 0 {
      assert Core(st[0]);
    } else {
      PollServed(st, cards, n - 1);
      PollTurnTimers(st, cards, n - 1, ToBury);
    }
  }

  // ---------- runs ----------

  ghost predicate KillingAt(st: seq<Sup>, k: nat, r: nat) {
    k < |st| && |st[k].lists| == 4 && r in st[k].lists[KILLING]
  }

  // All children up to r's are dead.
  ghost predicate DeadUpTo(s: Sup, r: nat)
    requires Fits(s) && r in s.lists[KILLING]
  {
    forall x {:trigger x in s.lists[KILLING]} :: x in s.lists[KILLING] && UpTo(s.lists[KILLING], r, x) ==>
      s.recs[x].pid !in s.alive
  }

  // A child that is dead stays dead, and its record stays with it.
  lemma DeadStays(s: Sup, e: Event, x: nat)
    requires Inv(s) && Possible(s, e) && Inv(Step(s, e)) && x in s.lists[KILLING] && x in Step(s, e).lists[KILLING]
    requires s.recs[x].pid !in s.alive
    ensures Step(s, e).recs[x].pid !in Step(s, e).alive
  {
    InOneList(s, x, KILLING);
    InOneList(Step(s, e), x, KILLING);
    StepEvolves(s, e, x);
    assert s.recs[x].pid in Pids(s.recs);
    AliveGrows(s, e);
  }

  // Nobody comes to life but the child forked.
  lemma AliveGrows(s: Sup, e: Event)
    requires Inv(s) && Possible(s, e)
    ensures Step(s, e).alive <= s.alive + if e.StartTick? && e.fork > 0 then {e.fork} else {}
  {
    match e
    case SpvTick => CheckLiveStateVisits(s);
    case TermTick => TermTickLaw(s);
    case KillTick => KillTickLaw(s);
    case SigChld(order) => BuryAllKeeps(s, order);
    case StartTick(fork) => StartTickLaw(s, fork);
    case HelloAck(pid) => AckCases(s, pid, FindObj(s.recs, s.lists[NORMAL], pid));
    case _ =>
  }

  lemma RunStepServed(st: seq<Sup>, es: seq<Event>, k: nat, r: nat)
    requires Behavior(st, es) && Inv(st[0]) && k < |es| && !st[k + 1].faulted && KillingAt(st, k, r)
    requires Fits(st[k]) && DeadUpTo(st[k], r) && KillingAt(st, k + 1, r)
    ensures Fits(st[k + 1]) && DeadUpTo(st[k + 1], r)
    ensures Index(st[k + 1].lists[KILLING], r) + (if es[k].KillTick? then 1 else 0) <= Index(st[k].lists[KILLING], r)
  {
    RunKeeps(st, es, k);
    RunKeeps(st, es, k + 1);
    BehaviorStep(st, es, k);
    StepServed(st[k], es[k], r);
    var q, q' := st[k].lists[KILLING], st[k + 1].lists[KILLING];
    forall x | x in q' && UpTo(q', r, x) ensures st[k + 1].recs[x].pid !in st[k + 1].alive {
      DeadStays(st[k], es[k], x);
    }
    if es[k].KillTick? { HeadLeaves(st[k], r); }
  }

  // If the first child is dead, a kill tick takes its record off the list, and the others move up.
  lemma HeadLeaves(s: Sup, r: nat)
    requires Inv(s) && r in s.lists[KILLING] && DeadUpTo(s, r) && r in Step(s, KillTick).lists[KILLING]
    ensures Index(Step(s, KillTick).lists[KILLING], r) + 1 == Index(s.lists[KILLING], r)
  {
    var q := s.lists[KILLING];
    KillTickLaw(s);
    assert q[0] in q && UpTo(q, r, q[0]);
    assert NoDup(q);
  }

  predicate IsKillTick(e: Event) { e.KillTick? }

  // On a run without fault, a record at position p of the Killing list, with all children up to its own
  // dead, has left the list within p + 1 kill ticks.
  lemma {:induction false} BuriedWithin(st: seq<Sup>, es: seq<Event>, j: nat, r: nat) returns (k: nat)
    requires Behavior(st, es) && Inv(st[0]) && !st[|es|].faulted && KillingAt(st, j, r)
    requires Fits(st[j]) && DeadUpTo(st[j], r) && Count(es[j..], IsKillTick) > Index(st[j].lists[KILLING], r)
    ensures j <= k < |es| && r < |st[k + 1].recs| && st[k + 1].recs[r].state != Killing
    decreases |es| - j
  {
    NoFaultBefore(st, es, j + 1);
    if KillingAt(st, j + 1, r) {
      RunStepServed(st, es, j, r);
      assert es[j..][1..] == es[j + 1..];
      k := BuriedWithin(st, es, j + 1, r);
    } else {
      k := j;
      RunKeeps(st, es, j);
      RunKeeps(st, es, j + 1);
      BehaviorStep(st, es, j);
      InOneList(st[j], r, KILLING);
      assert RecOk(st[j + 1], r);
    }
  }
}
