// A run from the start of the program that ends in its one fault.

module SupWitness {
  import opened Wrappers
  import opened Queues
  import opened Registry
  import opened SupModel
  import opened SupInv
  import opened SupSteps
  import opened SupChildren
  import opened SupCards
  import opened SupRuns
  import opened SupHistory
  import opened SupFaults
  import opened SupStart
  import opened SupTicks

  // Two slots: that of the device file, on line with card type 0, and slot 1, which the program cares
  // for; a driver for card type 1; no static process.
  const OWN_TYPE: nat := 0
  const CARD: nat := 1

  const LOADED := ModuleInit(2, [NoRegister, Masked], OWN_TYPE, 0)

  function AtStart(): (s: Sup)
    ensures Fits(s)
  {
    ModuleInitOk(2, [NoRegister, Masked], OWN_TYPE, 0);
    Init(2, 0, LOADED, true, {1}, 0)
  }

  // The states of the run: those of slot 1, its manager and the first record vary.
  function Bench(v: Rec, g: Mng, pool: seq<nat>, normal: seq<nat>, queue: seq<nat>, armed: bool,
                 alive: set<int>, zombies: set<int>, slot: Slot, ret: int): Sup {
    Sup([v, FREE_REC], [FRESH_MNG, g], [pool, normal, [], []], queue, armed, false, false, false, false,
        alive, zombies,
        Reg([TypeInfo(true, true), TypeInfo(true, true)],
            [Slot(OWN_TYPE, false, false, NoRegister, [On(OWN_TYPE)]), slot], [0, ret]),
        true, {1}, 0)
  }

  const EMPTY := Slot(ETINDEV_NULL, false, false, Masked, [])
  const INSERTED := Slot(CARD, false, false, Masked, [On(CARD)])

  // The manager while card type 1 is being counted, and once it is accepted
  function Counting(cnt: int, seen: seq<int>): Mng { Mng(None, ETINDEV_NULL, CARD, cnt, seen, []) }
  function Served(child: Option<nat>): Mng {
    Mng(child, CARD, ETINDEV_NULL, 0, [CARD, CARD, CARD, CARD], [IoCall(CARD, ETINDEV_NULL)])
  }
  const PROCESS := Rec(Normal, 7, 0, 0, Some(1), [])

  function Unserved(g: Mng): Sup { Bench(FREE_REC, g, [0, 1], [], [], false, {}, {}, EMPTY, 0) }
  const IDLE := Unserved(FRESH_MNG)
  function Running(alive: set<int>, zombies: set<int>, ret: int): Sup {
    Bench(PROCESS, Served(Some(0)), [1], [0], [], false, alive, zombies, INSERTED, ret)
  }

  const DEAD := Running({}, {7}, -1)
  const QUEUED := Bench(FREE_REC, Served(None), [0, 1], [], [1], true, {}, {}, INSERTED, 0)

  // What loading the driver module comes to here.
  lemma LoadedIs()
    ensures LOADED == Reg([TypeInfo(true, true), TypeInfo(false, false)],
                          [Slot(OWN_TYPE, false, false, NoRegister, [On(OWN_TYPE)]), EMPTY], [0, 0])
  {
    var masks := [NoRegister, Masked];
    var g := DrvInit(2, masks);
    var g1 := Register(g, OWN_TYPE, true, true).0;
    assert g == Reg([TypeInfo(false, false), TypeInfo(false, false)],
                    [Slot(ETINDEV_NULL, false, false, NoRegister, []), EMPTY], [0, 0]);
    assert g1 == g.(types := [TypeInfo(true, true), TypeInfo(false, false)]);
    assert g1.slots[0].calls + [On(OWN_TYPE)] == [On(OWN_TYPE)];
    assert Online(g1, 0, OWN_TYPE).0.slots == [Slot(OWN_TYPE, false, false, NoRegister, [On(OWN_TYPE)]), EMPTY];
  }

  lemma StartIs()
    ensures AtStart() == IDLE.(drv := IDLE.drv.(types := [TypeInfo(true, true), TypeInfo(false, false)]))
  {
    LoadedIs();
    assert seq(2, i => i) == [0, 1];
    assert seq(0, i requires 0 <= i < 0 => 2 + i) == [];
    assert seq(2, _ => FREE_REC) == [FREE_REC, FREE_REC];
    assert seq(2, _ => FRESH_MNG) == [FRESH_MNG, FRESH_MNG];
  }

  // A run of one event
  ghost predicate Goes(s: Sup, e: Event, s': Sup) { Behavior([s, s'], [e]) }

  lemma Going(s: Sup, e: Event, s': Sup)
    requires Fits(s) && Fits(s') && !s.faulted && Possible(s, e) && s' == Step(s, e)
    ensures Goes(s, e, s')
  {
    assert StepAt([s, s'], [e], 0);
  }

  lemma Registers()
    ensures Goes(AtStart(), DriverEvent(RegisterEv(CARD, true, true)), IDLE)
  {
    StartIs();
    var g := AtStart().drv;
    assert Register(g, CARD, true, true).0.slots == g.slots;
    Going(AtStart(), DriverEvent(RegisterEv(CARD, true, true)), IDLE);
  }

  lemma Reported(g: Mng, cnt: int, seen: seq<int>)
    requires (g == FRESH_MNG && cnt == 0 && seen == []) || (g == Counting(cnt - 1, seen) && 0 < cnt < 3)
    ensures Goes(Unserved(g), CardReport(1, CARD), Unserved(Counting(cnt, seen + [CARD])))
  {
    var s := Unserved(g);
    ReportCases(s, 1, CARD);
    FilterCardCases(s, 1, CARD);
    Going(s, CardReport(1, CARD), Unserved(Counting(cnt, seen + [CARD])));
  }

  lemma AcceptsCard()
    ensures Goes(Unserved(Counting(2, [CARD, CARD, CARD])), CardReport(1, CARD), QUEUED)
  {
    var s := Unserved(Counting(2, [CARD, CARD, CARD]));
    ReportCases(s, 1, CARD);
    FilterCardCases(s, 1, CARD);
    CardTaken(s);
    BroughtOnLine(Unserved(TAKEN));
    Going(s, CardReport(1, CARD), QUEUED);
  }

  const TAKEN := Mng(None, CARD, ETINDEV_NULL, 0, [CARD, CARD, CARD, CARD], [])

  lemma CardTaken(s: Sup)
    requires s == Unserved(Counting(2, [CARD, CARD, CARD]))
    ensures Fits(s) && Carded(s, 1, CARD) == Unserved(TAKEN)
  {
    assert [CARD, CARD, CARD] + [CARD] == [CARD, CARD, CARD, CARD];
    assert Carded(s, 1, CARD).mngs == Unserved(TAKEN).mngs;
  }

  lemma BroughtOnLine(s1: Sup)
    requires s1 == Unserved(TAKEN)
    ensures Fits(s1) && OnOffLine(s1, 1, CARD).0 == QUEUED.(queue := [], startTimer := false)
  {
    var s' := OnOffLine(s1, 1, CARD).0;
    assert EMPTY.calls + [On(CARD)] == [On(CARD)] && s1.mngs[1].io + [IoCall(CARD, -1)] == [IoCall(CARD, -1)];
    assert Online(s1.drv, 1, CARD).0.slots == QUEUED.drv.slots;
    assert s'.mngs == QUEUED.mngs;
  }

  lemma GetsProcess()
    ensures Goes(QUEUED, StartTick(7), Running({7}, {}, 0))
  {
    var s, s' := QUEUED, Running({7}, {}, 0);
    StartTickCases(s, 7);
    StartCases(s, 1, 7);
    TakesRecord();
    Going(s, StartTick(7), s');
  }

  lemma TakesRecord()
    ensures Fits(QUEUED) && Fits(Running({7}, {}, 0))
    ensures Capture(QUEUED, 1, 7) == (Running({7}, {}, 0).(queue := [1], startTimer := true), 0)
  {
    var s1 := Running({7}, {}, 0);
    FirstTaken();
    CaptureFacts(QUEUED, 1, 7);
    assert QUEUED.mngs[1 := QUEUED.mngs[1].(child := Some(0))] == s1.mngs;
    assert QUEUED.recs[0 := PROCESS] == s1.recs;
    assert {} + {7} == {7};
  }

  lemma FirstTaken()
    ensures Queues.Accept([[0, 1], [], [], []], NORMAL, 0) == [[1], [0], [], []]
  {
    assert Del([0, 1], 0) == [1] && Del([], 0) == [] && Del([], 0) + [0] == [0];
    assert DelAll([[0, 1], [], [], []], 0) == [[1], [], [], []];
  }

  lemma Dies7()
    ensures Goes(Running({7}, {}, 0), Dies(7), Running({}, {7}, 0))
  {
    Going(Running({7}, {}, 0), Dies(7), Running({}, {7}, 0));
  }

  lemma Refuses()
    ensures Goes(Running({}, {7}, 0), DriverEvent(OracleEv([0, -1])), Running({}, {7}, -1))
  {
    Going(Running({}, {7}, 0), DriverEvent(OracleEv([0, -1])), Running({}, {7}, -1));
  }

  // ---------- the run ----------

  // The run so far has reached s; event e takes it on.
  lemma Then(st: seq<Sup>, es: seq<Event>, s: Sup, e: Event, s': Sup) returns (st': seq<Sup>, es': seq<Event>)
    requires Behavior(st, es) && st[|es|] == s && Goes(s, e, s')
    ensures Behavior(st', es') && es' == es + [e] && st' == st + [s']
  {
    st', es' := st + [s'], es + [e];
    assert StepAt([s, s'], [e], 0) && Fits([s, s'][1]);
    forall k | 0 <= k < |es'| ensures StepAt(st', es', k) {
      if k < |es| { assert StepAt(st, es, k); }
    }
  }

  // Slot 1 is reported four times and its card accepted.
  lemma RunToQueued() returns (st: seq<Sup>, es: seq<Event>)
    ensures Behavior(st, es) && st[0] == AtStart() && st[|es|] == QUEUED
    ensures es == [DriverEvent(RegisterEv(CARD, true, true))] + seq(4, _ => CardReport(1, CARD))
  {
    var report := CardReport(1, CARD);
    var seen1, seen2, seen3 := [CARD], [CARD, CARD], [CARD, CARD, CARD];
    assert [] + [CARD] == seen1 && seen1 + [CARD] == seen2 && seen2 + [CARD] == seen3;
    var s1, s2, s3 := Unserved(Counting(0, seen1)), Unserved(Counting(1, seen2)), Unserved(Counting(2, seen3));
    Registers();
    Reported(FRESH_MNG, 0, []);
    Reported(Counting(0, seen1), 1, seen1);
    Reported(Counting(1, seen2), 2, seen2);
    AcceptsCard();
    st, es := FiveSteps(AtStart(), IDLE, s1, s2, s3, QUEUED, DriverEvent(RegisterEv(CARD, true, true)), report);
  }

  // A run of one event and then another four times over
  lemma FiveSteps(s: Sup, s1: Sup, s2: Sup, s3: Sup, s4: Sup, s5: Sup, e: Event, f: Event)
    returns (st: seq<Sup>, es: seq<Event>)
    requires Goes(s, e, s1) && Goes(s1, f, s2) && Goes(s2, f, s3) && Goes(s3, f, s4) && Goes(s4, f, s5)
    ensures Behavior(st, es) && st[0] == s && st[|es|] == s5 && es == [e] + seq(4, _ => f)
  {
    st, es := [s, s1], [e];
    st, es := Then(st, es, s1, f, s2);
    st, es := Then(st, es, s2, f, s3);
    st, es := Then(st, es, s3, f, s4);
    st, es := Then(st, es, s4, f, s5);
  }

  // It gets a process, which dies, while the driver comes to refuse the card.
  lemma RunToDead() returns (st: seq<Sup>, es: seq<Event>)
    ensures Behavior(st, es) && st[0] == AtStart() && st[|es|] == DEAD
    ensures es == [DriverEvent(RegisterEv(CARD, true, true))] + seq(4, _ => CardReport(1, CARD))
                  + [StartTick(7), Dies(7), DriverEvent(OracleEv([0, -1]))]
  {
    GetsProcess();
    Dies7();
    Refuses();
    st, es := RunToQueued();
    st, es := Then(st, es, QUEUED, StartTick(7), Running({7}, {}, 0));
    st, es := Then(st, es, Running({7}, {}, 0), Dies(7), Running({}, {7}, 0));
    st, es := Then(st, es, Running({}, {7}, 0), DriverEvent(OracleEv([0, -1])), DEAD);
  }

  lemma NoChildLeft(s: Sup, m: nat)
    requires Inv(s) && Children(s) == {} && m < |s.mngs|
    ensures s.mngs[m].child.None?
  {
    assert forall i :: 0 <= i < |s.recs| ==> (Busy(s.recs[i]) ==> s.recs[i].pid in Pids(s.recs));
    forall i | 0 <= i < |s.recs| ensures s.recs[i] == FREE_REC { assert RecOk(s, i); }
    assert LinkOk(s, m);
  }

  // Reaping it drops the manager.
  lemma Drops() returns (s': Sup)
    requires Inv(DEAD)
    ensures Goes(DEAD, SigChld([7]), s') && Inv(s') && Refused(DEAD, s', 1) && Dropped(s', 1) && s'.mngs[1].card == CARD
    ensures s'.care == {1} && |s'.drv.slots| == 2
  {
    s' := BuryAll(DEAD, [7]);
    BuryAllKeeps(DEAD, [7]);
    NoChildLeft(s', 1);
    BuryAllFalls(DEAD, [7], 1);
    Going(DEAD, SigChld([7]), s');
  }

  lemma StartAgrees()
    ensures Inv(AtStart()) && Agrees(AtStart())
  {
    ModuleInitOk(2, [NoRegister, Masked], OWN_TYPE, 0);
    StartOk(2, [NoRegister, Masked], OWN_TYPE, 0, [LOADED], [], 0, true, {1});
  }

  // From the start of the program: a card is accepted, its process dies, and the driver refuses the card
  // when it is to be brought on line again. The manager ends up with a card, attached to nothing and in no
  // queue.
  lemma DroppedManagerWitness() returns (st: seq<Sup>, es: seq<Event>)
    ensures Behavior(st, es) && st[0] == AtStart() && Inv(st[0]) && Agrees(st[0])
    ensures es == [DriverEvent(RegisterEv(CARD, true, true))] + seq(4, _ => CardReport(1, CARD))
                  + [StartTick(7), Dies(7), DriverEvent(OracleEv([0, -1])), SigChld([7])]
    ensures RefusedAt(st, 8, 1) && Dropped(st[9], 1) && st[9].mngs[1].card == CARD && Inv(st[9])
    ensures st[9].care == {1} && |st[9].drv.slots| == 2
  {
    StartAgrees();
    st, es := RunToDead();
    st, es := Dropping(st, es);
  }

  lemma Dropping(st: seq<Sup>, es: seq<Event>) returns (st': seq<Sup>, es': seq<Event>)
    requires Behavior(st, es) && Inv(st[0]) && st[|es|] == DEAD
    ensures Behavior(st', es') && es' == es + [SigChld([7])] && |st'| == |es| + 2 && st'[0] == st[0]
    ensures var s' := st'[|es| + 1];
            && RefusedAt(st', |es|, 1) && Dropped(s', 1) && s'.mngs[1].card == CARD && Inv(s')
            && s'.care == {1} && |s'.drv.slots| == 2
  {
    RunKeeps(st, es, |es|);
    var s' := Drops();
    st', es' := Then(st, es, DEAD, SigChld([7]), s');
  }

  lemma Faulting(s: Sup) returns (s': Sup)
    requires Inv(s) && Dropped(s, 1) && s.mngs[1].card == CARD && s.care == {1} && |s.drv.slots| == 2
    ensures Goes(s, CardReport(1, ETINDEV_NULL), s') && s'.faulted
  {
    var e := CardReport(1, ETINDEV_NULL);
    s' := Step(s, e);
    StepFaultsIff(s, e);
    assert ReportsOther(s, e, 1);
    Going(s, e, s');
  }

  // One more event, the report that the slot is empty, and the program faults.
  lemma FaultWitness() returns (st: seq<Sup>, es: seq<Event>)
    ensures Behavior(st, es) && st[0] == AtStart() && Inv(st[0]) && Agrees(st[0])
    ensures es == [DriverEvent(RegisterEv(CARD, true, true))] + seq(4, _ => CardReport(1, CARD))
                  + [StartTick(7), Dies(7), DriverEvent(OracleEv([0, -1])), SigChld([7]), CardReport(1, ETINDEV_NULL)]
    ensures !st[9].faulted && st[10].faulted
  {
    st, es := DroppedManagerWitness();
    var s' := Faulting(st[9]);
    st, es := Then(st, es, st[9], CardReport(1, ETINDEV_NULL), s');
  }
}
