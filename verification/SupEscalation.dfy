// What happens to one record from event to event, and what that means for a whole run: signal
// escalation and the liveness verdict.

module SupEscalation {
  import opened Wrappers
  import opened Queues
  import opened Registry
  import opened SupModel
  import opened SupInv
  import opened SupSteps
  import opened SupChildren
  import opened SupCards
  import opened SupTraversal
  import opened SupRuns

  predicate Tallied(e: Event, v: Rec, v': Rec) {
    && v.state == Normal
    && (|| (e.HelloTick? && v' == v.(nExp := v.nExp + 1))
        || (e == HelloAck(v.pid) && v' == v.(nReal := v.nReal + 1))
        || (e.SpvTick? && IsLive(v) && v' == v.(nExp := 0, nReal := 0)))
  }
  predicate Started(v: Rec, v': Rec) {
    v == FREE_REC && v'.state == Normal && v'.nExp == v'.nReal == 0 && v'.sent == []
  }
  predicate SentSignal(v: Rec, v': Rec) {
    (v.state == Normal && v' == Termed(v)) || (v.state in {Normal, Exiting} && v' == Killed(v))
  }

  // The five things an event can do to a record.
  ghost predicate Evolves(s: Sup, e: Event, v: Rec, v': Rec) {
    || v' == v
    || Tallied(e, v, v')
    || Started(v, v')
    || (SentSignal(v, v') && v.pid in Children(s))  // only unreaped children are signalled
    || (Busy(v) && v' == FREE_REC && v.pid !in s.alive)  // only dead children are released
  }

  lemma BuryRecs(s: Sup, pid: int, i: nat)
    requires Inv(s) && pid in s.zombies && i < |s.recs|
    ensures Bury(s, pid).recs[i] == if Busy(s.recs[i]) && s.recs[i].pid == pid then FREE_REC else s.recs[i]
  {
    BuryKeeps(s, pid);
    FindBusyFinds(s, pid);
  }

  lemma {:induction false} BuryAllRecs(s: Sup, pids: seq<int>, i: nat)
    requires Inv(s) && Distinct(pids) && (forall p :: p in pids ==> p in s.zombies) && i < |s.recs|
    ensures BuryAll(s, pids).recs[i] == if Busy(s.recs[i]) && s.recs[i].pid in pids then FREE_REC else s.recs[i]
  {
    if pids != [] {
      var n := |pids| - 1;
      var front, last := pids[..n], pids[n];
      SplitLast(pids);
      BuryAllKeeps(s, front);
      BuryAllRecs(s, front, i);
      BuryRecs(BuryAll(s, front), last, i);
    }
  }

  // What a report can do to a record.
  predicate TermedAt(v: Rec, v': Rec) { v' == v || (v.state == Normal && v' == Termed(v)) }

  lemma CardChangeRecs(s: Sup, d: int, t: int, i: nat)
    requires Core(s) && i < |s.recs|
    ensures |HandleCardChange(s, d, t).recs| == |s.recs| && TermedAt(s.recs[i], HandleCardChange(s, d, t).recs[i])
  {
    CardChangeLocalised(s, d, t);
  }

  lemma PollTurnRecs(st: seq<Sup>, cards: seq<int>, k: nat, i: nat)
    requires Polling(st, cards) && k < |cards| && Core(st[k]) && i < |st[k].recs|
    ensures |st[k + 1].recs| == |st[k].recs| && TermedAt(st[k].recs[i], st[k + 1].recs[i])
  {
    assert PollsAt(st, cards, k);
    CardChangeRecs(st[k], k, cards[k], i);
  }

  lemma {:induction false} PollRecs(st: seq<Sup>, cards: seq<int>, n: nat, i: nat)
    requires Polling(st, cards) && Core(st[0]) && n < |st| && i < |st[0].recs|
    ensures |st[n].recs| == |st[0].recs| && TermedAt(st[0].recs[i], st[n].recs[i])
  {
    if n > 0 {
      PollRecs(st, cards, n - 1, i);
      PollKeeps(st, cards, n - 1);
      PollTurnRecs(st, cards, n - 1, i);
    }
  }

  lemma CheckDevChangeRecs(s: Sup, cards: seq<int>, i: nat)
    requires Core(s) && i < |s.recs|
    ensures TermedAt(s.recs[i], CheckDevChange(s, cards, |cards|).recs[i])
  {
    var st := PollStates(s, cards);
    PollRecs(st, cards, |cards|, i);
  }

  lemma StartRecs(s: Sup, fork: int, i: nat)
    requires Inv(s) && fork != 0 && (fork > 0 ==> fork !in Children(s)) && i < |s.recs|
    ensures var v, v' := s.recs[i], CheckNeedStart(s, fork).recs[i]; v' == v || Started(v, v')
  {
    if s.queue != [] {
      var m := First(s.queue);
      assert MngBasic(s, m);
      PoolNeverDry(s, m);
      if fork > 0 { CaptureRecs(s, m, fork); }
    }
  }

  lemma KillTimeoutRecs(s: Sup, i: nat)
    requires Core(s) && i < |s.recs|
    ensures var v, v' := s.recs[i], CheckKillTimeout(s).recs[i];
            v' == v || (Busy(v) && v' == FREE_REC && v.pid !in s.alive)
  {
    if s.lists[KILLING] != [] {
      var r := First(s.lists[KILLING]);
      InOneList(s, r, KILLING);
      assert RecOk(s, r);
      StopKeeps(s, s.recs[r].parent.value);
    }
  }

  lemma TermTimeoutRecs(s: Sup, i: nat)
    requires Core(s) && i < |s.recs|
    ensures var v, v' := s.recs[i], CheckTermTimeout(s).recs[i];
            v' == v || (v.state == Exiting && v' == Killed(v))
  {
    if s.lists[EXITING] != [] { InOneList(s, First(s.lists[EXITING]), EXITING); }
  }

  lemma SpvRecs(s: Sup, i: nat)
    requires Core(s) && i < |s.recs|
    ensures var v, v' := s.recs[i], CheckLiveState(s).recs[i];
            v' == v || (v.state == Normal && v' == Supervised(v, s.needKill))
  {
    CheckLiveStateVisits(s);
    if i in s.lists[NORMAL] { InOneList(s, i, NORMAL); }
  }

  lemma HelloRecs(s: Sup, i: nat)
    requires Fits(s) && RecsOk(s) && i < |s.recs|
    ensures var v := s.recs[i]; Hello4Live(s).recs[i] == if v.state == Normal then v.(nExp := v.nExp + 1) else v
  {
    assert RecOk(s, i);
    if i in s.lists[NORMAL] { InOneList(s, i, NORMAL); }
  }

  lemma AckRecs(s: Sup, pid: int, i: nat)
    requires Fits(s) && RecsOk(s) && i < |s.recs|
    ensures var v := s.recs[i];
            UpdateLiveState(s, pid).recs[i] == if v.state == Normal && v.pid == pid then v.(nReal := v.nReal + 1) else v
  {
    var o := FindObj(s.recs, s.lists[NORMAL], pid);
    AckCases(s, pid, o);
    AckedAlone(s, pid, o, i);
  }

  // Record i is the one an acknowledgement finds exactly if it is Normal and has the sender's pid.
  lemma AckedAlone(s: Sup, pid: int, o: Option<nat>, i: nat)
    requires Fits(s) && RecsOk(s) && i < |s.recs|
    requires o.Some? ==> o.value in s.lists[NORMAL] && o.value < |s.recs| && s.recs[o.value].pid == pid
    requires o.None? ==> forall x :: x in s.lists[NORMAL] ==> s.recs[x].pid != pid
    ensures s.recs[i].state == Normal && s.recs[i].pid == pid <==> o == Some(i)
  {
    assert RecOk(s, i);
    if o.Some? {
      InOneList(s, o.value, NORMAL);
      if i != o.value && s.recs[i].state == Normal { PidsDiffer(s.recs, i, o.value); }
    }
  }

  lemma AckCases(s: Sup, pid: int, o: Option<nat>)
    requires Fits(s) && o == FindObj(s.recs, s.lists[NORMAL], pid)
    ensures o.Some? ==> o.value < |s.recs|
    ensures o.None? ==> UpdateLiveState(s, pid) == s
    ensures o.Some? ==> var v := s.recs[o.value];
                        UpdateLiveState(s, pid) == s.(recs := s.recs[o.value := v.(nReal := v.nReal + 1)])
  {
  }

  lemma PidsDiffer(recs: seq<Rec>, i: nat, j: nat)
    requires DistinctPids(recs) && i < |recs| && j < |recs| && i != j && Busy(recs[i]) && Busy(recs[j])
    ensures recs[i].pid != recs[j].pid
  {
    if j < i { assert recs[j].pid != recs[i].pid; }
  }

  lemma StepEvolves(s: Sup, e: Event, i: nat)
    requires Inv(s) && Possible(s, e) && i < |s.recs|
    ensures Evolves(s, e, s.recs[i], Step(s, e).recs[i])
  {
    assert Busy(s.recs[i]) ==> s.recs[i].pid in Pids(s.recs);
    match e
    case HelloTick => HelloRecs(s, i);
    case HelloAck(pid) => AckRecs(s, pid, i);
    case SpvTick => SpvRecs(s, i);
    case TermTick => TermTimeoutRecs(s, i);
    case KillTick => KillTimeoutRecs(s, i);
    case SigChld(order) => BuryAllRecs(s, order, i);
    case StartTick(fork) => StartRecs(s, fork, i);
    case CardReport(slot, card) => CardChangeRecs(s, slot, card, i);
    case CardPoll(cards) => CheckDevChangeRecs(s, cards, i);
    case Dies(pid) =>
    case DriverEvent(ev) =>
  }

  // ---------- escalation over a run ----------

  function Rank(st: PrcState): nat {
    match st case Null => 0 case Normal => 1 case Exiting => 2 case Killing => 3
  }

  // From state j to state k of a run, record i is not released.
  ghost predicate Stays(st: seq<Sup>, j: nat, k: nat, i: nat)
    requires j <= k < |st|
  {
    forall n :: j <= n <= k ==> i < |st[n].recs| && Busy(st[n].recs[i])
  }

  lemma EvolvesAdvances(s: Sup, e: Event, v: Rec, v': Rec)
    requires Evolves(s, e, v, v') && Busy(v) && Busy(v')
    ensures v'.pid == v.pid && v'.parent == v.parent && Rank(v.state) <= Rank(v'.state) && v.sent <= v'.sent
  {
  }

  ghost predicate Advances(v: Rec, v': Rec) {
    v'.pid == v.pid && v'.parent == v.parent && Rank(v.state) <= Rank(v'.state) && v.sent <= v'.sent
  }

  lemma RunStepAdvances(st: seq<Sup>, es: seq<Event>, k: nat, i: nat)
    requires Behavior(st, es) && Inv(st[0]) && k < |es| && i < |st[k].recs| && i < |st[k + 1].recs|
    requires Busy(st[k].recs[i]) && Busy(st[k + 1].recs[i])
    ensures Advances(st[k].recs[i], st[k + 1].recs[i])
  {
    RunKeeps(st, es, k);
    BehaviorStep(st, es, k);
    StepEvolves(st[k], es[k], i);
    EvolvesAdvances(st[k], es[k], st[k].recs[i], st[k + 1].recs[i]);
  }

  lemma {:induction false} RunAdvances(st: seq<Sup>, es: seq<Event>, j: nat, k: nat, i: nat)
    requires Behavior(st, es) && Inv(st[0]) && j <= k < |st| && Stays(st, j, k, i)
    ensures Advances(st[j].recs[i], st[k].recs[i])
  {
    if j < k {
      RunAdvances(st, es, j, k - 1, i);
      RunStepAdvances(st, es, k - 1, i);
    }
  }

  // While a record represents one child, it keeps pid and manager, its state only advances, and the
  // signals sent only grow; at any time they are a prefix of TERM, KILL or of KILL.
  lemma RunEscalates(st: seq<Sup>, es: seq<Event>, j: nat, k: nat, i: nat)
    requires Behavior(st, es) && Inv(st[0]) && j <= k < |st| && !st[k].faulted && Stays(st, j, k, i)
    ensures var v, v' := st[j].recs[i], st[k].recs[i];
            && v'.pid == v.pid && v'.parent == v.parent
            && Rank(v.state) <= Rank(v'.state)
            && v.sent <= v'.sent
            && (v'.sent <= [SigTerm, SigKill] || v'.sent <= [SigKill])
  {
    RunAdvances(st, es, j, k, i);
    RunKeeps(st, es, k);
    assert RecOk(st[k], i);
  }

  // ---------- the liveness verdict ----------

  ghost predicate StaysNormal(st: seq<Sup>, j: nat, k: nat, i: nat)
    requires j <= k < |st|
  {
    forall n :: j <= n <= k ==> i < |st[n].recs| && st[n].recs[i].state == Normal
  }

  function Hellos(es: seq<Event>): nat {
    if es == [] then 0 else Hellos(es[..|es| - 1]) + if es[|es| - 1].HelloTick? then 1 else 0
  }

  function Acks(es: seq<Event>, pid: int): nat {
    if es == [] then 0 else Acks(es[..|es| - 1], pid) + if es[|es| - 1] == HelloAck(pid) then 1 else 0
  }

  lemma CountStep(s: Sup, e: Event, i: nat)
    requires Inv(s) && Possible(s, e) && i < |s.recs| && !e.SpvTick?
    requires s.recs[i].state == Normal && Step(s, e).recs[i].state == Normal
    ensures var v, v' := s.recs[i], Step(s, e).recs[i];
            && v'.pid == v.pid
            && v'.nExp == v.nExp + (if e.HelloTick? then 1 else 0)
            && v'.nReal == v.nReal + (if e == HelloAck(v.pid) then 1 else 0)
  {
    if e.HelloTick? {
      HelloRecs(s, i);
    } else if e.HelloAck? {
      AckRecs(s, e.pid, i);
    } else {
      StepEvolves(s, e, i);
      NotCounted(s, e, s.recs[i], Step(s, e).recs[i]);
    }
  }

  // Other events leave the counters of a process that stays Normal alone.
  lemma NotCounted(s: Sup, e: Event, v: Rec, v': Rec)
    requires Evolves(s, e, v, v') && v.state == v'.state == Normal && !e.SpvTick? && !e.HelloTick? && !e.HelloAck?
    ensures v' == v
  {
  }

  lemma SliceCounts(es: seq<Event>, j: nat, k: nat, pid: int)
    requires j < k <= |es|
    ensures Hellos(es[j..k]) == Hellos(es[j..k - 1]) + if es[k - 1].HelloTick? then 1 else 0
    ensures Acks(es[j..k], pid) == Acks(es[j..k - 1], pid) + if es[k - 1] == HelloAck(pid) then 1 else 0
  {
    assert es[j..k][..k - 1 - j] == es[j..k - 1];
  }

  lemma RunStepCounts(st: seq<Sup>, es: seq<Event>, k: nat, i: nat)
    requires Behavior(st, es) && Inv(st[0]) && k < |es| && !es[k].SpvTick? && i < |st[k].recs| && i < |st[k + 1].recs|
    requires st[k].recs[i].state == st[k + 1].recs[i].state == Normal
    ensures var v, v' := st[k].recs[i], st[k + 1].recs[i];
            && v'.pid == v.pid
            && v'.nExp == v.nExp + (if es[k].HelloTick? then 1 else 0)
            && v'.nReal == v.nReal + (if es[k] == HelloAck(v.pid) then 1 else 0)
  {
    RunKeeps(st, es, k);
    BehaviorStep(st, es, k);
    CountStep(st[k], es[k], i);
  }

  // Between supervision ticks the counters count hello ticks and this process's acknowledgements.
  lemma {:induction false} RunCounts(st: seq<Sup>, es: seq<Event>, j: nat, k: nat, i: nat)
    requires Behavior(st, es) && Inv(st[0]) && j <= k < |st| && StaysNormal(st, j, k, i)
    requires st[j].recs[i].nExp == st[j].recs[i].nReal == 0
    requires forall n :: j <= n < k ==> !es[n].SpvTick?
    ensures var pid := st[j].recs[i].pid;
            && st[k].recs[i].pid == pid
            && st[k].recs[i].nExp == Hellos(es[j..k]) && st[k].recs[i].nReal == Acks(es[j..k], pid)
  {
    if j < k {
      RunCounts(st, es, j, k - 1, i);
      RunStepCounts(st, es, k - 1, i);
      SliceCounts(es, j, k, st[j].recs[i].pid);
    }
  }

  // The counters are zero when a process starts and when it survives a supervision tick.
  lemma WindowOpens(s: Sup, e: Event, i: nat)
    requires Inv(s) && Possible(s, e) && i < |s.recs| && Step(s, e).recs[i].state == Normal
    requires s.recs[i].state != Normal || (e.SpvTick? && IsLive(s.recs[i]))
    ensures Step(s, e).recs[i].nExp == Step(s, e).recs[i].nReal == 0
  {
    assert RecOk(s, i);
    if e.SpvTick? {
      CheckLiveStateVisits(s);
      if i in s.lists[NORMAL] { InOneList(s, i, NORMAL); }
    } else {
      StepEvolves(s, e, i);
    }
  }

  // With killing enabled, a supervision tick kills a Normal process exactly if, since the counters
  // were last zero, hello ticks outnumber its acknowledgements by five or more. Six ticks to a
  // window, two acknowledgements always suffice and one never does.
  lemma Verdict(st: seq<Sup>, es: seq<Event>, j: nat, k: nat, i: nat)
    requires Behavior(st, es) && Inv(st[0]) && j <= k < |es| && StaysNormal(st, j, k, i)
    requires st[j].recs[i].nExp == st[j].recs[i].nReal == 0
    requires (forall n :: j <= n < k ==> !es[n].SpvTick?) && es[k] == SpvTick && st[0].needKill
    ensures |st[k + 1].recs| == |st[k].recs|
    ensures var hellos, acks := Hellos(es[j..k]), Acks(es[j..k], st[j].recs[i].pid);
            && (st[k + 1].recs[i].state == if hellos - acks >= 5 then Killing else Normal)
            && (hellos == 6 && acks >= 2 ==> st[k + 1].recs[i].state == Normal)
            && (hellos == 6 && acks <= 1 ==> st[k + 1].recs[i].state == Killing)
  {
    RunCounts(st, es, j, k, i);
    RunKeeps(st, es, k);
    BehaviorStep(st, es, k);
    CheckLiveStateVisits(st[k]);
    assert RecOk(st[k], i);
  }
}
