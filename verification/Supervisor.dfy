// The supervisor in its own form: timers, signal handlers and managers working on tables of objects
// that are linked into intrusive lists. Every method is proved to do what its function in SupModel says.

module SupervisorImpl {
  import opened Wrappers
  import opened Queues
  import opened CList
  import opened Registry
  import opened DriverCoreImpl
  import opened SupModel
  import opened SupInv
  import opened SupRuns
  import opened SupSteps
  import opened SupChildren
  import opened SupCards
  import opened SupTraversal
  import opened SupShutdown
  import opened SupFaults
  import opened Entities

  // The lists, the tables linked into them, and the operating system's side.
  method MakeParts(n: nat) returns (rl: Rings, sl: Rings, t: Tables, o: Os)
    ensures fresh(rl.Repr) && fresh(sl.Repr) && fresh(t.Repr) && fresh(o)
    ensures rl.Repr !! sl.Repr !! t.Repr && o !in rl.Repr + sl.Repr + t.Repr
    ensures rl.Valid() && |rl.heads| == 4 && |rl.nodes| == n && rl.lists == seq(4, _ => [])
    ensures sl.Valid() && |sl.heads| == 1 && |sl.nodes| == n && sl.lists == seq(1, _ => [])
    ensures t.Valid() && |t.recs| == |t.mngs| == n && t.vRecs == seq(n, _ => FREE_REC)
    ensures t.vMngs == seq(n, _ => FRESH_MNG)
    ensures forall i {:trigger t.recs[i]} :: 0 <= i < n ==> t.recs[i].link == rl.nodes[i]
    ensures forall m {:trigger t.mngs[m]} :: 0 <= m < n ==> t.mngs[m].link == sl.nodes[m]
    ensures o.alive == o.zombies == {}
  {
    rl := MakeRings(n, 4);
    sl := MakeRings(n, 1);
    t := new Tables(rl.nodes, sl.nodes);
    o := new Os();
  }

  class Supervisor {
    const t: Tables
    const recLists: Rings   // s_listPool, s_listNormal, s_listExiting, s_listKilling
    const startList: Rings  // s_list2Start
    const os: Os
    const drv: DriverCore   // behind the device file
    const needKill: bool
    const care: set<int>
    const self: int
    var startTimer: bool
    var termTimer: bool
    var killTimer: bool
    var exitFlag: bool

    ghost function DrvRepr(): set<object> { {drv, drv.slots, drv.types} }

    ghost function Repr(): set<object> { {this, os} + t.Repr + recLists.Repr + startList.Repr + DrvRepr() }

    // How the objects hang together; all of it constant.
    ghost predicate Wired() {
      && t in t.Repr && recLists in recLists.Repr && startList in startList.Repr
      && {this as object} !! {os as object} !! t.Repr !! recLists.Repr !! startList.Repr !! DrvRepr()
      && |recLists.heads| == 4 && |recLists.nodes| == |t.recs|
      && (forall i {:trigger t.recs[i]} :: 0 <= i < |t.recs| ==> t.recs[i].link == recLists.nodes[i])
      && |startList.heads| == 1 && |startList.nodes| == |t.mngs|
      && (forall m {:trigger t.mngs[m]} :: 0 <= m < |t.mngs| ==> t.mngs[m].link == startList.nodes[m])
    }

    ghost predicate Valid()
      reads Repr()
    {
      Wired() && t.Valid() && recLists.Valid() && startList.Valid() && drv.Valid()
    }

    // The state on values.
    ghost function View(): Sup
      reads Repr()
      requires Valid()
    {
      Sup(t.vRecs, t.vMngs, recLists.lists, startList.lists[0], startTimer, termTimer, killTimer, exitFlag, false,
          os.alive, os.zombies, drv.View(), needKill, care, self)
    }

    // The static tables of the program.
    constructor (n: nat, drv: DriverCore, needKill: bool, care: set<int>, self: int)
      requires drv.Valid()
      ensures Valid() && this.drv == drv && |t.mngs| == |t.recs| == n
      ensures View() == Sup(seq(n, _ => FREE_REC), seq(n, _ => FRESH_MNG), [[], [], [], []], [],
                            false, false, false, false, false, {}, {}, drv.View(), needKill, care, self)
    {
      var rl, sl, tables, o := MakeParts(n);
      t, recLists, startList, os := tables, rl, sl, o;
      this.drv, this.needKill, this.care, this.self := drv, needKill, care, self;
      startTimer, termTimer, killTimer, exitFlag := false, false, false, false;
      new;
      assert Wired();
    }

    // ---------- one table, list or device at a time ----------

    lemma RecFacts(rhs: RtPrcInfo)
      requires Valid() && rhs in t.recs
      ensures rhs.idx < |t.recs| && t.recs[rhs.idx] == rhs && rhs.Val() == View().recs[rhs.idx]
      ensures rhs.link == recLists.nodes[rhs.idx] && rhs.link.id == rhs.idx
      ensures rhs.parent != null ==> rhs.parent in t.mngs
    {
      assert recLists.nodes[rhs.idx].id == rhs.idx;
    }

    lemma MngFacts(mng: MngInfo)
      requires Valid() && mng in t.mngs
      ensures mng.idx < |t.mngs| && t.mngs[mng.idx] == mng && mng.Is(View().mngs[mng.idx])
      ensures mng.link == startList.nodes[mng.idx] && mng.link.id == mng.idx
      ensures mng.child != null ==> mng.child in t.recs
    {
      assert startList.nodes[mng.idx].id == mng.idx;
    }

    // addIn2Start
    method AddIn2Start(mng: MngInfo)
      requires Valid() && mng in t.mngs && mng.idx !in View().queue
      modifies Repr()
      ensures Valid()
      ensures View() == old(View()).(startTimer := old(startTimer) || old(View().queue) == [],
                                     queue := old(View().queue) + [mng.idx])
    {
      ArmStartIfEmpty();
      Enqueue(mng);
    }

    method ArmStartIfEmpty()
      requires Valid()
      modifies Repr()
      ensures Valid() && View() == old(View()).(startTimer := old(startTimer) || old(View().queue) == [])
    {
      var empty := startList.IsEmpty(0);
      if empty { startTimer := true; }
    }

    method Enqueue(mng: MngInfo)
      requires Valid() && mng in t.mngs && mng.idx !in View().queue
      modifies Repr()
      ensures Valid() && View() == old(View()).(queue := old(View().queue) + [mng.idx])
    {
      MngFacts(mng);
      startList.AddTail(0, mng.link);
    }

    // delFrom2Start
    method DelFrom2Start(mng: MngInfo)
      requires Valid() && mng in t.mngs && mng.idx in View().queue
      modifies Repr()
      ensures Valid() && View() == old(View()).(queue := Del(old(View().queue), mng.idx))
    {
      MngFacts(mng);
      assert mng.idx in startList.lists[0];
      startList.Delete(mng.link);
    }

    // s_listX.accept
    method Accept(k: nat, rhs: RtPrcInfo)
      requires Valid() && k < 4 && rhs in t.recs
      requires |View().lists| == 4 && exists j :: 0 <= j < 4 && rhs.idx in View().lists[j]
      modifies Repr()
      ensures Valid() && View() == old(View()).(lists := Queues.Accept(old(View().lists), k, rhs.idx))
      ensures os.signals == old(os.signals)
    {
      RecFacts(rhs);
      recLists.Accept(k, rhs.link);
    }

    // signalTerm
    method SignalTerm(rhs: RtPrcInfo)
      requires Valid() && rhs in t.recs
      requires rhs.state in {Normal, Exiting} && rhs.pid in os.alive + os.zombies
      modifies Repr()
      ensures Valid()
      ensures View() == old(View()).(recs := old(View().recs)[rhs.idx := old(View().recs[rhs.idx]).(
                state := Exiting, sent := old(View().recs[rhs.idx]).sent + [SigTerm])])
      ensures os.signals == old(os.signals) + [(old(rhs.pid), SigTerm)]
    {
      RecFacts(rhs);
      t.SignalTerm(rhs, os);
    }

    // signalKill
    method SignalKill(rhs: RtPrcInfo)
      requires Valid() && rhs in t.recs
      requires rhs.state in {Normal, Exiting} && rhs.pid in os.alive + os.zombies
      modifies Repr()
      ensures Valid()
      ensures View() == old(View()).(recs := old(View().recs)[rhs.idx := old(View().recs[rhs.idx]).(
                state := Killing, sent := old(View().recs[rhs.idx]).sent + [SigKill])])
      ensures os.signals == old(os.signals) + [(old(rhs.pid), SigKill)]
    {
      RecFacts(rhs);
      t.SignalKill(rhs, os);
    }

    // clrTimes
    method ClrTimes(rhs: RtPrcInfo)
      requires Valid() && rhs in t.recs
      modifies Repr()
      ensures Valid()
      ensures View() == old(View()).(recs := old(View().recs)[rhs.idx := old(View().recs[rhs.idx]).(
                nExp := 0, nReal := 0)])
      ensures os.signals == old(os.signals)
    {
      RecFacts(rhs);
      t.ClrTimes(rhs);
    }

    // sendHello
    method SendHello(rhs: RtPrcInfo)
      requires Valid() && rhs in t.recs
      requires rhs.state == Normal
      modifies Repr()
      ensures Valid()
      ensures View() == old(View()).(recs := old(View().recs)[rhs.idx := old(View().recs[rhs.idx]).(
                nExp := old(View().recs[rhs.idx]).nExp + 1)])
    {
      RecFacts(rhs);
      t.SendHello(rhs);
    }

    // updateRealTimes
    method UpdateRealTimes(rhs: RtPrcInfo)
      requires Valid() && rhs in t.recs
      modifies Repr()
      ensures Valid()
      ensures View() == old(View()).(recs := old(View().recs)[rhs.idx := old(View().recs[rhs.idx]).(
                nReal := old(View().recs[rhs.idx]).nReal + 1)])
    {
      RecFacts(rhs);
      t.UpdateRealTimes(rhs);
    }

    // CRtPrcInfo::start
    method StartRec(rhs: RtPrcInfo, outcome: int) returns (ret: int)
      requires Valid() && rhs in t.recs
      requires rhs.state == Null && rhs.pid == -1 && rhs.nExpTimes == 0 && rhs.nRealTimes == 0
      requires outcome != 0 && (outcome > 0 ==> outcome !in os.alive + os.zombies)
      modifies Repr()
      ensures Valid()
      ensures if outcome < 0 then ret < 0 && View() == old(View())
              else && ret == 0
                   && View() == old(View()).(alive := old(os.alive) + {outcome}, recs := old(View().recs)[rhs.idx :=
                        old(View().recs[rhs.idx]).(state := Normal, pid := outcome, sent := [])])
    {
      RecFacts(rhs);
      ret := t.StartRec(rhs, os, outcome);
    }

    // CRtPrcInfo::stop
    method StopRec(rhs: RtPrcInfo) returns (ret: int)
      requires Valid() && rhs in t.recs && rhs.state != Null && rhs.pid > 0
      modifies Repr()
      ensures Valid()
      ensures if old(rhs.pid) in old(os.alive) then ret < 0 && View() == old(View())
              else && ret == 0
                   && View() == old(View()).(zombies := old(os.zombies) - {old(rhs.pid)}, recs := old(View().recs)[
                        rhs.idx := old(View().recs[rhs.idx]).(state := Null, pid := -1, sent := [])])
    {
      RecFacts(rhs);
      ret := t.StopRec(rhs, os);
    }

    // buildBdAss
    method BuildBdAss(parent: MngInfo, child: RtPrcInfo)
      requires Valid() && parent in t.mngs && child in t.recs && parent.child == null && child.parent == null
      modifies Repr()
      ensures Valid()
      ensures View() == old(View()).(
                mngs := old(View().mngs)[parent.idx := old(View().mngs[parent.idx]).(child := Some(child.idx))],
                recs := old(View().recs)[child.idx := old(View().recs[child.idx]).(parent := Some(parent.idx))])
    {
      RecFacts(child);
      MngFacts(parent);
      t.BuildBdAss(parent, child);
    }

    // destroyBdAss
    method DestroyBdAss(parent: MngInfo, child: RtPrcInfo)
      requires Valid() && parent in t.mngs && child in t.recs && parent.child != null && child.parent != null
      modifies Repr()
      ensures Valid()
      ensures View() == old(View()).(
                mngs := old(View().mngs)[parent.idx := old(View().mngs[parent.idx]).(child := None)],
                recs := old(View().recs)[child.idx := old(View().recs[child.idx]).(parent := None)])
    {
      RecFacts(child);
      MngFacts(parent);
      t.DestroyBdAss(parent, child);
    }

    method SetCards(mng: MngInfo, card: int, cardNew: int, cnt: int, ghost seen': seq<int>)
      requires Valid() && mng in t.mngs
      modifies Repr()
      ensures Valid()
      ensures View() == old(View()).(mngs := old(View().mngs)[mng.idx :=
                old(View().mngs[mng.idx]).(card := card, cardNew := cardNew, cnt := cnt, seen := seen')])
    {
      MngFacts(mng);
      t.SetCards(mng, card, cardNew, cnt, seen');
    }

    // ioctl PDM_IOC_CARD_ON_OFF_LINE
    method IoctlOnOffLine(mng: MngInfo, card: int) returns (ret: int)
      requires Valid() && mng in t.mngs && Fits(View()) && Dynamic(View(), mng.idx)
      modifies Repr()
      ensures Valid() && (View(), ret) == OnOffLine(old(View()), mng.idx, card)
    {
      MngFacts(mng);
      ghost var call := IoCall(card, View().drv.slots[mng.idx].card);
      ret := drv.CardOnOffLine(self, mng.idx, card);
      t.LogIo(mng, call);
    }

    method SetTimers(start: bool, term: bool, kill: bool)
      requires Valid()
      modifies Repr()
      ensures Valid() && View() == old(View()).(startTimer := start, termTimer := term, killTimer := kill)
      ensures os.signals == old(os.signals)
    {
      startTimer, termTimer, killTimer := start, term, kill;
    }

    // Start a timer if its list is empty.
    method ArmIfEmpty(k: nat)
      requires Valid() && (k == EXITING || k == KILLING)
      modifies Repr()
      ensures Valid() && |old(View().lists)| == 4
      ensures View() == if k == EXITING then old(View()).(termTimer := old(termTimer) || old(View().lists)[k] == [])
                        else old(View()).(killTimer := old(killTimer) || old(View().lists)[k] == [])
      ensures os.signals == old(os.signals)
    {
      var empty := recLists.IsEmpty(k);
      if k == EXITING {
        SetTimers(startTimer, termTimer || empty, killTimer);
      } else {
        SetTimers(startTimer, termTimer, killTimer || empty);
      }
    }

    // Stop a timer if its list is empty.
    method DisarmIfEmpty(k: nat)
      requires Valid() && (k == EXITING || k == KILLING)
      modifies Repr()
      ensures Valid() && |old(View().lists)| == 4
      ensures View() == if old(View().lists)[k] != [] then old(View())
                        else if k == EXITING then old(View()).(termTimer := false) else old(View()).(killTimer := false)
    {
      var empty := recLists.IsEmpty(k);
      if empty {
        if k == EXITING { SetTimers(startTimer, false, killTimer); } else { SetTimers(startTimer, termTimer, false); }
      }
    }

    method DisarmStartIfEmpty()
      requires Valid()
      modifies Repr()
      ensures Valid() && View() == if old(View().queue) != [] then old(View()) else old(View()).(startTimer := false)
    {
      var empty := startList.IsEmpty(0);
      if empty { SetTimers(false, termTimer, killTimer); }
    }

    method WaitAny() returns (pid: int)
      requires Valid() && forall p :: p in os.zombies ==> p > 0
      modifies Repr()
      ensures Valid()
      ensures if old(os.zombies) == {} then pid <= 0 && View() == old(View())
              else pid in old(os.zombies) && View() == old(View()).(zombies := old(os.zombies) - {pid})
    {
      pid := os.WaitAny();
    }

    // ---------- pdm/src/rt_prc_info.cpp ----------

    // A busy record is in a list, and its child has not been reaped.
    lemma BusyFacts(rhs: RtPrcInfo)
      requires Valid() && Core(View()) && rhs in t.recs
      ensures exists j :: 0 <= j < 4 && rhs.idx in View().lists[j]
      ensures rhs.state != Null ==> rhs.pid > 0 && rhs.parent != null && rhs.parent.child == rhs
      ensures rhs.state != Null && ChildrenOk(View()) ==> rhs.pid in os.alive + os.zombies
    {
      RecFacts(rhs);
      var v := View().recs[rhs.idx];
      assert RecOk(View(), rhs.idx);
      assert Busy(v) ==> v.pid in Pids(View().recs);
      if rhs.parent != null { MngFacts(rhs.parent); }
    }

    // sTerm
    method STerm(rhs: RtPrcInfo)
      requires Valid() && rhs in t.recs && rhs.state in {Normal, Exiting} && rhs.pid in os.alive + os.zombies
      requires Fits(View())
      requires exists j :: 0 <= j < 4 && rhs.idx in View().lists[j]
      modifies Repr()
      ensures Valid() && rhs.idx < |old(View().recs)| && View() == Term(old(View()), rhs.idx)
      ensures os.signals == old(os.signals) + [(old(rhs.pid), SigTerm)]
    {
      RecFacts(rhs);
      SignalTerm(rhs);
      ClrTimes(rhs);
      assert View() == SupModel.ClrTimes(SupModel.SignalTerm(old(View()), rhs.idx), rhs.idx);
      ArmIfEmpty(EXITING);
      Accept(EXITING, rhs);
    }

    // sKill
    method SKill(rhs: RtPrcInfo)
      requires Valid() && rhs in t.recs && rhs.state in {Normal, Exiting} && rhs.pid in os.alive + os.zombies
      requires Fits(View())
      requires exists j :: 0 <= j < 4 && rhs.idx in View().lists[j]
      modifies Repr()
      ensures Valid() && rhs.idx < |old(View().recs)| && View() == Kill(old(View()), rhs.idx)
      ensures os.signals == if needKill then old(os.signals) + [(old(rhs.pid), SigKill)] else old(os.signals)
    {
      RecFacts(rhs);
      if !needKill { return; }
      SignalKill(rhs);
      ClrTimes(rhs);
      assert View() == SupModel.ClrTimes(SupModel.SignalKill(old(View()), rhs.idx), rhs.idx);
      ArmIfEmpty(KILLING);
      Accept(KILLING, rhs);
    }

    // getFirstEntry of a record list
    method FirstRec(k: nat) returns (inst: RtPrcInfo?)
      requires Valid() && k < 4 && |View().lists| == 4
      ensures if View().lists[k] == [] then inst == null
              else inst != null && inst in t.recs && inst.idx == First(View().lists[k])
    {
      var h := recLists.GetFirstEntry(k);
      if h == null { return null; }
      inst := t.recs[h.id];
    }

    // The pool is not empty, and its first record is free.
    ghost predicate FreeHead(s: Sup)
      requires Fits(s)
    {
      s.lists[POOL] != [] && s.recs[First(s.lists[POOL])] == FREE_REC
    }

    // What start relies on: the manager at the head of the queue has no process and, if it is a dynamic
    // one, a card, and there is a free record for it.
    ghost predicate Startable(s: Sup) {
      && Fits(s)
      && (s.queue != [] ==>
            var m := First(s.queue);
            s.mngs[m].child.None? && (Dynamic(s, m) ==> s.mngs[m].card != ETINDEV_NULL) && FreeHead(s))
    }

    lemma CoreStartable(s: Sup)
      requires Core(s)
      ensures Startable(s)
    {
      if s.queue != [] {
        var m := First(s.queue);
        assert MngBasic(s, m);
        PoolNeverDry(s, m);
        InOneList(s, First(s.lists[POOL]), POOL);
        assert RecOk(s, First(s.lists[POOL]));
      }
    }

    // sCapture
    method SCapture(parent: MngInfo, outcome: int) returns (ret: int)
      requires Valid() && Fits(View()) && FreeHead(View()) && parent in t.mngs && parent.child == null
      requires outcome != 0 && (outcome > 0 ==> outcome !in os.alive + os.zombies)
      modifies Repr()
      ensures Valid() && parent.idx < |old(View().mngs)| && (View(), ret) == Capture(old(View()), parent.idx, outcome)
    {
      MngFacts(parent);
      var inst := FirstRec(POOL);
      assert inst != null;  // the pool is not empty
      RecFacts(inst);
      ghost var v, r := View(), inst.idx;
      ret := StartRec(inst, outcome);
      if ret < 0 { return -1; }
      ghost var w := View();
      Attach(parent, inst);
      CaptureSteps(v, w, parent.idx, r, outcome);
    }

    // Starting a record and then attaching it is what Capture does.
    lemma CaptureSteps(v: Sup, w: Sup, m: nat, r: nat, fork: int)
      requires Fits(v) && m < |v.mngs| && v.lists[POOL] != [] && r == First(v.lists[POOL]) && fork > 0
      requires w == v.(alive := v.alive + {fork},
                       recs := v.recs[r := v.recs[r].(state := Normal, pid := fork, sent := [])])
      ensures Capture(v, m, fork) ==
                (w.(mngs := w.mngs[m := w.mngs[m].(child := Some(r))],
                    recs := w.recs[r := w.recs[r].(parent := Some(m))],
                    lists := Queues.Accept(w.lists, NORMAL, r)), 0)
    {
      assert w.recs[r := w.recs[r].(parent := Some(m))] ==
             v.recs[r := v.recs[r].(state := Normal, pid := fork, parent := Some(m), sent := [])];
    }

    // The end of sCapture: associate and move.
    method Attach(parent: MngInfo, inst: RtPrcInfo)
      requires Valid() && parent in t.mngs && inst in t.recs && parent.idx < |View().mngs| && inst.idx < |View().recs|
      requires View().mngs[parent.idx].child.None? && View().recs[inst.idx].parent.None?
      requires |View().lists| == 4 && inst.idx in View().lists[POOL]
      modifies Repr()
      ensures Valid()
      ensures View() == old(View()).(
                mngs := old(View().mngs)[parent.idx := old(View().mngs[parent.idx]).(child := Some(inst.idx))],
                recs := old(View().recs)[inst.idx := old(View().recs[inst.idx]).(parent := Some(parent.idx))],
                lists := Queues.Accept(old(View().lists), NORMAL, inst.idx))
    {
      RecFacts(inst);
      MngFacts(parent);
      BuildBdAss(parent, inst);
      Accept(NORMAL, inst);
    }

    // sRelease
    method SRelease(rhs: RtPrcInfo) returns (ret: int)
      requires Valid() && Fits(View()) && rhs in t.recs && rhs.state != Null && rhs.pid > 0
      requires rhs.parent != null && rhs.parent.child != null
      requires exists j :: 0 <= j < 4 && rhs.idx in View().lists[j]
      modifies Repr()
      ensures Valid() && rhs.idx < |old(View().recs)| && old(View().recs)[rhs.idx].parent.Some?
      ensures (View(), ret) == Release(old(View()), rhs.idx)
    {
      RecFacts(rhs);
      ghost var v := View();
      ret := StopRec(rhs);
      if ret < 0 { return -1; }
      ghost var w := View();
      RecFacts(rhs);
      DestroyBdAss(rhs.parent, rhs);
      ClrTimes(rhs);
      Accept(POOL, rhs);
      ReleaseSteps(v, w, rhs.idx);
    }

    // Reclaiming, detaching, clearing and moving a record is what Release does.
    lemma ReleaseSteps(v: Sup, w: Sup, r: nat)
      requires Fits(v) && r < |v.recs| && v.recs[r].parent.Some? && v.recs[r].pid !in v.alive
      requires w == v.(zombies := v.zombies - {v.recs[r].pid},
                       recs := v.recs[r := v.recs[r].(state := Null, pid := -1, sent := [])])
      ensures var m := v.recs[r].parent.value;
              Release(v, r) ==
                (w.(mngs := w.mngs[m := w.mngs[m].(child := None)],
                    recs := w.recs[r := w.recs[r].(parent := None)]
                                  [r := w.recs[r].(parent := None, nExp := 0, nReal := 0)],
                    lists := Queues.Accept(w.lists, POOL, r)), 0)
    {
      assert w.recs[r := w.recs[r].(parent := None)][r := w.recs[r].(parent := None, nExp := 0, nReal := 0)]
          == v.recs[r := FREE_REC];
    }

    lemma FindFrom(vs: seq<Rec>, q: seq<nat>, j: nat, pid: int)
      requires j <= |q| && Below(q[j..], |vs|)
      ensures j == |q| ==> FindObj(vs, q[j..], pid) == None
      ensures j < |q| ==>
                && q[j] < |vs| && Below(q[j + 1..], |vs|)
                && FindObj(vs, q[j..], pid) == if vs[q[j]].pid == pid then Some(q[j]) else FindObj(vs, q[j + 1..], pid)
    {
      if j < |q| {
        assert q[j] == q[j..][0] && q[j..][1..] == q[j + 1..];
        assert q[j] in q[j..] && forall x :: x in q[j..][1..] ==> x in q[j..];
      }
    }

    // sFindObj
    method SFindObj(k: nat, pid: int) returns (rhs: RtPrcInfo?)
      requires Valid() && Fits(View()) && k < 4
      ensures rhs != null ==> rhs in t.recs
      ensures FindObj(View().recs, View().lists[k], pid) == if rhs == null then None else Some(rhs.idx)
    {
      ghost var vs, ls, j := View().recs, recLists.lists, 0;
      var head := recLists.heads[k];
      assert recLists.At(ls, k, -1).next == recLists.At(ls, k, 0);
      var h := head.next;
      recLists.Unique(ls, k, -1);
      assert ls[k][0..] == ls[k];
      while h != head
        invariant 0 <= j <= |ls[k]| && h == recLists.At(ls, k, j)
        invariant Below(ls[k][j..], |vs|) && FindObj(vs, ls[k], pid) == FindObj(vs, ls[k][j..], pid)
        decreases |ls[k]| - j
      {
        FindFrom(vs, ls[k], j, pid);
        var inst := t.recs[h.id];
        RecFacts(inst);
        if inst.pid == pid { return inst; }
        assert recLists.At(ls, k, j).next == recLists.At(ls, k, j + 1);
        h := h.next;
        j := j + 1;
      }
      FindFrom(vs, ls[k], j, pid);
      return null;
    }

    // ---------- pdm/src/prc_mng_info.cpp, static_prc_info.cpp, dynamic_prc_info.cpp ----------

    // What stop relies on: an attached manager is not queued, and its record is busy and in a list.
    ghost predicate Stoppable(s: Sup, m: nat) {
      && Fits(s) && m < |s.mngs|
      && (s.mngs[m].child.Some? ==>
            && m !in s.queue
            && var r := s.mngs[m].child.value;
            && Busy(s.recs[r]) && s.recs[r].pid > 0 && s.recs[r].parent == Some(m)
            && exists j :: 0 <= j < 4 && r in s.lists[j])
    }

    lemma CoreStoppable(s: Sup, m: nat)
      requires Core(s) && m < |s.mngs|
      ensures Stoppable(s, m)
    {
      assert LinkOk(s, m) && MngBasic(s, m);
      if s.mngs[m].child.Some? { assert RecOk(s, s.mngs[m].child.value); }
    }

    // CPrcMngInfo::stop with the two versions of subStop
    method Stop(mng: MngInfo)
      requires Valid() && mng in t.mngs && Stoppable(View(), mng.idx)
      modifies Repr()
      ensures Valid() && mng.idx < |old(View().mngs)| && View() == SupModel.Stop(old(View()), mng.idx)
    {
      MngFacts(mng);
      if mng.child == null { return; }
      ghost var v := View();
      RecFacts(mng.child);
      var ret := SRelease(mng.child);
      if ret < 0 { return; }
      if mng.idx < drv.slots.Length {
        Restart(mng);
      } else {
        AddIn2Start(mng);
      }
    }

    // CDynamicPrcMngInfo::subStop after the release
    method Restart(mng: MngInfo)
      requires Valid() && Fits(View()) && mng in t.mngs && Dynamic(View(), mng.idx) && mng.idx !in View().queue
      modifies Repr()
      ensures Valid() && View() == SupModel.Restart(old(View()), mng.idx)
    {
      MngFacts(mng);
      ghost var v := View();
      var ret := IoctlOnOffLine(mng, ETINDEV_NULL);
      if ret < 0 { return; }
      OnOffLineFrame(v, mng.idx, ETINDEV_NULL);
      MngFacts(mng);
      if mng.cardType != ETINDEV_NULL && !exitFlag {
        ret := IoctlOnOffLine(mng, mng.cardType);
        if ret < 0 { return; }
        AddIn2Start(mng);
      }
    }

    // CPrcMngInfo::start with the two versions of subStart, of the manager at the head of the queue
    method Start(mng: MngInfo, outcome: int)
      requires Valid() && Startable(View()) && mng in t.mngs && View().queue != [] && mng.idx == First(View().queue)
      requires outcome != 0 && (outcome > 0 ==> outcome !in os.alive + os.zombies)
      modifies Repr()
      ensures Valid() && mng.idx < |old(View().mngs)| && View() == SupModel.Start(old(View()), mng.idx, outcome)
    {
      MngFacts(mng);
      assert mng.child == null;                                            // not attached already
      assert mng.idx < drv.slots.Length ==> mng.cardType != ETINDEV_NULL;  // not without a card
      ghost var v := View();
      StartNow(mng, outcome);
      StartedIs(v, mng.idx, outcome, View());
    }

    // What start comes to when both checks pass.
    ghost predicate StartedTo(v: Sup, m: nat, outcome: int, w: Sup)
      requires Fits(v) && m < |v.mngs|
    {
      var (s1, ret) := Capture(v, m, outcome);
      m in v.queue && w == if ret < 0 then s1 else s1.(queue := Del(s1.queue, m))
    }

    lemma StartedIs(v: Sup, m: nat, outcome: int, w: Sup)
      requires Fits(v) && m < |v.mngs| && v.mngs[m].child.None? && (Dynamic(v, m) ==> v.mngs[m].card != ETINDEV_NULL)
      requires StartedTo(v, m, outcome, w)
      ensures w == SupModel.Start(v, m, outcome)
    {
      StartCases(v, m, outcome);
      CaptureQueue(v, m, outcome);
    }

    lemma CaptureQueue(v: Sup, m: nat, outcome: int)
      requires Fits(v) && m < |v.mngs|
      ensures Capture(v, m, outcome).0.queue == v.queue
    {
    }

    // The end of the two versions of subStart
    method StartNow(mng: MngInfo, outcome: int)
      requires Valid() && Fits(View()) && FreeHead(View()) && mng in t.mngs && mng.child == null
      requires mng.idx in View().queue
      requires outcome != 0 && (outcome > 0 ==> outcome !in os.alive + os.zombies)
      modifies Repr()
      ensures Valid() && mng.idx < |old(View().mngs)|
      ensures StartedTo(old(View()), mng.idx, outcome, View())
    {
      MngFacts(mng);
      CaptureQueue(View(), mng.idx, outcome);
      var ret := SCapture(mng, outcome);
      if ret < 0 { return; }
      DelFrom2Start(mng);
    }

    // getFirstEntry of s_list2Start
    method FirstMng() returns (mng: MngInfo?)
      requires Valid()
      ensures if View().queue == [] then mng == null else mng != null && mng in t.mngs && mng.idx == First(View().queue)
    {
      var h := startList.GetFirstEntry(0);
      if h == null { return null; }
      mng := t.mngs[h.id];
    }

    // sCheckNeedStart
    method SCheckNeedStart(outcome: int)
      requires Valid() && Startable(View())
      requires outcome != 0 && (outcome > 0 ==> outcome !in os.alive + os.zombies)
      modifies Repr()
      ensures Valid() && View() == CheckNeedStart(old(View()), outcome)
    {
      var mng := FirstMng();
      if mng != null { Start(mng, outcome); }
      DisarmStartIfEmpty();
    }

    // ---------- timers of pdm/src/rt_prc_info.cpp ----------

    // The first Exiting record, if any, may be killed; the first Killing one, if any, has a manager to stop.
    ghost predicate HeadsOk(s: Sup) {
      && Fits(s)
      && (s.lists[EXITING] != [] ==>
            var r := First(s.lists[EXITING]); s.recs[r].state == Exiting && s.recs[r].pid in Children(s))
      && (s.lists[KILLING] != [] ==>
            var r := First(s.lists[KILLING]); s.recs[r].parent.Some? && Stoppable(s, s.recs[r].parent.value))
    }

    lemma InvHeads(s: Sup)
      requires Inv(s)
      ensures HeadsOk(s)
    {
      if s.lists[EXITING] != [] {
        var r := First(s.lists[EXITING]);
        InOneList(s, r, EXITING);
        assert s.recs[r].pid in Pids(s.recs);
      }
      if s.lists[KILLING] != [] {
        var r := First(s.lists[KILLING]);
        InOneList(s, r, KILLING);
        assert RecOk(s, r);
        CoreStoppable(s, s.recs[r].parent.value);
      }
    }

    // sCheckTermTimeout
    method SCheckTermTimeout()
      requires Valid() && HeadsOk(View())
      modifies Repr()
      ensures Valid() && View() == CheckTermTimeout(old(View()))
    {
      var inst := FirstRec(EXITING);
      if inst != null {
        RecFacts(inst);
        assert inst.idx in View().lists[EXITING];
        SKill(inst);
      }
      DisarmIfEmpty(EXITING);
    }

    // sCheckKillTimeout
    method SCheckKillTimeout()
      requires Valid() && HeadsOk(View())
      modifies Repr()
      ensures Valid() && View() == CheckKillTimeout(old(View()))
    {
      var inst := FirstRec(KILLING);
      if inst != null {
        RecFacts(inst);
        assert inst.parent != null;  // every busy record has a manager
        Stop(inst.parent);
      }
      DisarmIfEmpty(KILLING);
    }

    // One record's part of sHello4Live: those of q have been sent a hello.
    ghost function Helloed(vs: seq<Rec>, q: seq<nat>): seq<Rec> {
      seq(|vs|, i requires 0 <= i < |vs| => if i in q then vs[i].(nExp := vs[i].nExp + 1) else vs[i])
    }

    lemma HelloNext(vs: seq<Rec>, q: seq<nat>, n: nat)
      requires n < |q| && NoDup(q) && q[n] < |vs|
      ensures Helloed(vs, q[..n])[q[n]] == vs[q[n]]
      ensures Helloed(vs, q[..n])[q[n] := vs[q[n]].(nExp := vs[q[n]].nExp + 1)] == Helloed(vs, q[..n + 1])
    {
      assert q[..n + 1] == q[..n] + [q[n]];
    }

    // What sHello4Live relies on: the records of the Normal list are Normal, and in it once.
    ghost predicate NormalsOk(s: Sup) {
      && Fits(s) && NoDup(s.lists[NORMAL])
      && forall i :: i in s.lists[NORMAL] ==> i < |s.recs| && s.recs[i].state == Normal
    }

    lemma CoreNormals(s: Sup)
      requires Core(s)
      ensures NormalsOk(s)
    {
      assert s.lists[NORMAL] + [] == s.lists[NORMAL];
      NormalPrefix(s, s.lists[NORMAL], []);
    }

    // sHello4Live stands at header h and holds on to the header hN after it; the first n records of the
    // Normal list have been sent a hello.
    ghost predicate HelloAt(v: Sup, n: nat, h: CListHeader, hN: CListHeader)
      reads Repr()
    {
      && Valid() && NormalsOk(v) && n <= |v.lists[NORMAL]|
      && View() == v.(recs := Helloed(v.recs, v.lists[NORMAL][..n]))
      && h == recLists.At(recLists.lists, NORMAL, n) && (h == recLists.heads[NORMAL] <==> n == |v.lists[NORMAL]|)
      && (n < |v.lists[NORMAL]| ==> hN == recLists.At(recLists.lists, NORMAL, n + 1))
    }

    // sHello4Live
    method SHello4Live()
      requires Valid() && NormalsOk(View())
      modifies Repr()
      ensures Valid() && View() == Hello4Live(old(View()))
    {
      ghost var v, n := View(), 0;
      var h, hN := HelloFirst();
      while h != recLists.heads[NORMAL]
        invariant HelloAt(v, n, h, hN)
        decreases |v.lists[NORMAL]| - n
      {
        h, hN := HelloNextRec(h, hN, v, n);
        n := n + 1;
      }
      HelloEnds(v, n, h, hN);
    }

    lemma HelloEnds(v: Sup, n: nat, h: CListHeader, hN: CListHeader)
      requires HelloAt(v, n, h, hN) && n == |v.lists[NORMAL]|
      ensures View() == Hello4Live(v)
    {
      assert v.lists[NORMAL][..n] == v.lists[NORMAL];
    }

    method HelloFirst() returns (h: CListHeader, hN: CListHeader)
      requires Valid() && NormalsOk(View())
      ensures HelloAt(View(), 0, h, hN)
    {
      assert Helloed(View().recs, View().lists[NORMAL][..0]) == View().recs;
      recLists.NextAt(NORMAL, -1);
      recLists.NextAt(NORMAL, 0);
      h := recLists.heads[NORMAL].next;
      hN := h.next;
    }

    // The body of the loop of sHello4Live, with the step of the traversal
    method HelloNextRec(h: CListHeader, hN: CListHeader, ghost v: Sup, ghost n: nat)
      returns (h': CListHeader, hN': CListHeader)
      requires HelloAt(v, n, h, hN) && h != recLists.heads[NORMAL]
      modifies Repr()
      ensures n < |v.lists[NORMAL]| && HelloAt(v, n + 1, h', hN')
    {
      HelloTo(h.id, v, n);
      recLists.NextAt(NORMAL, n + 1);
      h' := hN;
      hN' := hN.next;
    }

    method HelloTo(r: nat, ghost v: Sup, ghost n: nat)
      requires Valid() && NormalsOk(v) && n < |v.lists[NORMAL]| && r == v.lists[NORMAL][n]
      requires View() == v.(recs := Helloed(v.recs, v.lists[NORMAL][..n]))
      modifies Repr()
      ensures Valid() && View() == v.(recs := Helloed(v.recs, v.lists[NORMAL][..n + 1]))
    {
      assert r in v.lists[NORMAL];
      HelloNext(v.recs, v.lists[NORMAL], n);
      RecFacts(t.recs[r]);
      SendHello(t.recs[r]);
    }

    // sUpdateLiveState
    method SUpdateLiveState(pid: int) returns (ret: int)
      requires Valid() && Fits(View())
      modifies Repr()
      ensures Valid() && View() == UpdateLiveState(old(View()), pid)
      ensures ret == if FindObj(old(View()).recs, old(View()).lists[NORMAL], pid).Some? then 0 else -1
    {
      var inst := SFindObj(NORMAL, pid);
      if inst == null { return -1; }
      UpdateRealTimes(inst);
      ret := 0;
    }

    // The state after the first n records of the Normal list have been visited, ...
    ghost function VisitedUpTo(v: Sup, n: nat): (s: Sup)
      requires Fits(v) && n <= |v.lists[NORMAL]|
      ensures Fits(s)
    {
      assert Below(v.lists[NORMAL], |v.recs|);
      assert forall i :: i in v.lists[NORMAL][..n] ==> i in v.lists[NORMAL];
      SuperviseAll(v, v.lists[NORMAL][..n])
    }

    // ... and how many of them are still in it.
    ghost function StillListed(v: Sup, n: nat): int
      requires Fits(v) && n <= |v.lists[NORMAL]|
    {
      |VisitedUpTo(v, n).lists[NORMAL]| - (|v.lists[NORMAL]| - n)
    }

    lemma VisitFacts(v: Sup, n: nat)
      requires Inv(v) && n <= |v.lists[NORMAL]|
      ensures Inv(VisitedUpTo(v, n)) && 0 <= StillListed(v, n) <= |VisitedUpTo(v, n).lists[NORMAL]|
      ensures VisitedUpTo(v, n).lists[NORMAL][StillListed(v, n)..] == v.lists[NORMAL][n..]
    {
      var q := v.lists[NORMAL];
      assert q == q[..n] + q[n..];
      SuperviseAllVisits(v, q[..n], q[n..]);
      NormalPrefix(v, q[..n], q[n..]);
      SuperviseAllKeeps(v, q[..n]);
      SpvEnv(v, q[..n]);
    }

    lemma VisitStep(v: Sup, n: nat)
      requires Inv(v) && n < |v.lists[NORMAL]|
      ensures var s, r := VisitedUpTo(v, n), v.lists[NORMAL][n];
              && r in s.lists[NORMAL] && 0 <= StillListed(v, n) < |s.lists[NORMAL]|
              && s.lists[NORMAL][StillListed(v, n)] == r
              && r < |s.recs| && s.recs[r].state == Normal
              && VisitedUpTo(v, n + 1) == Supervise(s, r)
    {
      var q := v.lists[NORMAL];
      VisitFacts(v, n);
      var s := VisitedUpTo(v, n);
      assert s.lists[NORMAL][StillListed(v, n)..][0] == q[n..][0];
      InOneList(s, q[n], NORMAL);
      assert Front(q[..n + 1]) == q[..n] && Last(q[..n + 1]) == q[n];
    }

    // The node after the one visited is where the traversal goes on, wherever the visited one went.
    lemma AfterVisit(v: Sup, n: nat)
      requires Valid() && Inv(v) && n < |v.lists[NORMAL]| && View() == VisitedUpTo(v, n + 1)
      requires recLists.Listing(VisitedUpTo(v, n).lists)
      ensures 0 <= StillListed(v, n) < |VisitedUpTo(v, n).lists[NORMAL]|
      ensures 0 <= StillListed(v, n + 1) <= |recLists.lists[NORMAL]|
      ensures recLists.At(VisitedUpTo(v, n).lists, NORMAL, StillListed(v, n) + 1)
              == recLists.At(recLists.lists, NORMAL, StillListed(v, n + 1))
      ensures n + 1 == |v.lists[NORMAL]| <==> StillListed(v, n + 1) == |recLists.lists[NORMAL]|
    {
      VisitFacts(v, n);
      VisitFacts(v, n + 1);
      var q, ls, p := v.lists[NORMAL], VisitedUpTo(v, n).lists, StillListed(v, n);
      assert ls[NORMAL][p + 1..] == ls[NORMAL][p..][1..] == q[n..][1..] == q[n + 1..];
      recLists.AtSuffix(ls, recLists.lists, NORMAL, p + 1, StillListed(v, n + 1));
    }

    // After n visits the state is v', and the traversal stands at position p of its Normal list.
    ghost predicate Cursor(v: Sup, n: nat, v': Sup, p: int) {
      && Inv(v) && n <= |v.lists[NORMAL]| && v' == VisitedUpTo(v, n) && p == StillListed(v, n)
      && 0 <= p <= |v'.lists[NORMAL]| && (p == |v'.lists[NORMAL]| <==> n == |v.lists[NORMAL]|)
    }

    lemma CursorStarts(v: Sup)
      requires Inv(v)
      ensures Cursor(v, 0, v, 0)
    {
      assert v.lists[NORMAL][..0] == [];
    }

    lemma CursorEnds(v: Sup, n: nat, v': Sup, p: nat)
      requires Cursor(v, n, v', p) && p == |v'.lists[NORMAL]|
      ensures v' == CheckLiveState(v)
    {
      assert v.lists[NORMAL][..n] == v.lists[NORMAL];
    }

    // The body of the loop of sCheckLiveState
    method SuperviseOne(r: nat, ghost v: Sup, ghost n: nat, ghost p: nat) returns (ghost p': nat)
      requires Valid() && Cursor(v, n, View(), p) && p < |recLists.lists[NORMAL]| && r == recLists.lists[NORMAL][p]
      modifies Repr()
      ensures Valid() && Cursor(v, n + 1, View(), p') && p' <= |recLists.lists[NORMAL]|
      ensures old(recLists.At(recLists.lists, NORMAL, p + 1)) == recLists.At(recLists.lists, NORMAL, p')
    {
      VisitFacts(v, n);
      VisitStep(v, n);
      var inst := t.recs[r];
      RecFacts(inst);
      BusyFacts(inst);
      if inst.IsLive(DIFF_SPV_HELLO) { ClrTimes(inst); } else { SKill(inst); }
      AfterVisit(v, n);
      p' := StillListed(v, n + 1);
    }

    // sCheckLiveState stands at header h after n visits, and holds on to the header hN after it, because
    // killing moves the current record to another list.
    ghost predicate VisitAt(v: Sup, n: nat, p: int, h: CListHeader, hN: CListHeader)
      reads Repr()
    {
      && Valid() && Cursor(v, n, View(), p) && 0 <= p <= |recLists.lists[NORMAL]|
      && h == recLists.At(recLists.lists, NORMAL, p) && (h == recLists.heads[NORMAL] <==> p == |recLists.lists[NORMAL]|)
      && (p < |recLists.lists[NORMAL]| ==> hN == recLists.At(recLists.lists, NORMAL, p + 1))
    }

    // sCheckLiveState
    method SCheckLiveState()
      requires Valid() && Inv(View())
      modifies Repr()
      ensures Valid() && View() == CheckLiveState(old(View()))
    {
      ghost var v, n, p := View(), 0, 0;
      var h, hN := VisitFirst();
      while h != recLists.heads[NORMAL]
        invariant VisitAt(v, n, p, h, hN)
        decreases |v.lists[NORMAL]| - n
      {
        h, hN, p := VisitNext(h, hN, v, n, p);
        n := n + 1;
      }
      CursorEnds(v, n, View(), p);
    }

    method VisitFirst() returns (h: CListHeader, hN: CListHeader)
      requires Valid() && Inv(View())
      ensures VisitAt(View(), 0, 0, h, hN)
    {
      CursorStarts(View());
      recLists.NextAt(NORMAL, -1);
      recLists.NextAt(NORMAL, 0);
      h := recLists.heads[NORMAL].next;
      hN := h.next;
    }

    // The body of the loop of sCheckLiveState, with the step of the traversal
    method VisitNext(h: CListHeader, hN: CListHeader, ghost v: Sup, ghost n: nat, ghost p: int)
      returns (h': CListHeader, hN': CListHeader, ghost p': int)
      requires VisitAt(v, n, p, h, hN) && h != recLists.heads[NORMAL]
      modifies Repr()
      ensures n < |v.lists[NORMAL]| && VisitAt(v, n + 1, p', h', hN')
    {
      p' := SuperviseOne(h.id, v, n, p);
      recLists.NextAt(NORMAL, p');
      h' := hN;
      hN' := hN.next;
    }

    // ---------- SIGCHLD ----------

    // The record of a reaped pid: Killing first, then Exiting, then Normal.
    method FindReaped(pid: int) returns (inst: RtPrcInfo?)
      requires Valid() && Fits(View())
      ensures inst != null ==> inst in t.recs
      ensures FindBusy(View(), pid) == if inst == null then None else Some(inst.idx)
    {
      inst := SFindObj(KILLING, pid);
      if inst == null { inst := SFindObj(EXITING, pid); }
      if inst == null { inst := SFindObj(NORMAL, pid); }
    }

    lemma ReapedStoppable(s: Sup, pid: int)
      requires Inv(s) && pid in s.zombies
      ensures var s1 := s.(zombies := s.zombies - {pid});
              && FindBusy(s1, pid).Some?
              && var r := FindBusy(s1, pid).value; s1.recs[r].parent.Some? && Stoppable(s1, s1.recs[r].parent.value)
    {
      var s1 := s.(zombies := s.zombies - {pid});
      ReapedCore(s, s1);
      FindBusyFinds(s1, pid);
      assert RecOk(s1, FindBusy(s1, pid).value);
      CoreStoppable(s1, s1.recs[FindBusy(s1, pid).value].parent.value);
    }

    // One round of the loop of sBuryChld; s is the state before waitpid took the zombie.
    method BuryOne(pid: int, ghost s: Sup)
      requires Valid() && Inv(s) && pid in s.zombies && View() == s.(zombies := s.zombies - {pid})
      modifies Repr()
      ensures Valid() && View() == Bury(s, pid)
    {
      ReapedStoppable(s, pid);
      var inst := FindReaped(pid);
      assert inst != null;         // the pid is recognised
      RecFacts(inst);
      assert inst.parent != null;  // every busy record has a manager
      MngFacts(inst.parent);
      Stop(inst.parent);
    }

    lemma ZombiesPositive(s: Sup)
      requires Inv(s)
      ensures forall p :: p in s.zombies ==> p > 0
    {
      forall p | p in s.zombies ensures p > 0 {
        assert p in Pids(s.recs);
        var i :| 0 <= i < |s.recs| && Busy(s.recs[i]) && s.recs[i].pid == p;
        assert RecOk(s, i);
      }
    }

    // sBuryChld: the loop ends, having reaped every zombie.
    method SBuryChld() returns (ghost order: seq<int>)
      requires Valid() && Inv(View())
      modifies Repr()
      ensures Valid() && Possible(old(View()), SigChld(order)) && View() == BuryAll(old(View()), order)
      ensures View().zombies == {}
    {
      ghost var v, s := View(), View();
      order := [];
      ZombiesPositive(s);
      var pid := WaitAny();
      while pid > 0
        invariant Valid() && Reaping(v, order, s)
        invariant if pid > 0 then pid in s.zombies && View() == s.(zombies := s.zombies - {pid})
                  else View() == s && s.zombies == {}
        decreases s.zombies
      {
        BuryOne(pid, s);
        ReapingNext(v, order, s, pid);
        order, s := order + [pid], View();
        ZombiesPositive(s);
        pid := WaitAny();
      }
      assert forall p :: p in order <==> p in v.zombies;
    }

    // s is the state after the zombies in order have been buried.
    ghost predicate Reaping(v: Sup, order: seq<int>, s: Sup) {
      && Inv(v) && Inv(s) && Distinct(order) && s == BuryAll(v, order)
      && (forall p :: p in v.zombies <==> p in s.zombies || p in order) && (forall p :: p in order ==> p !in s.zombies)
    }

    lemma ReapingNext(v: Sup, order: seq<int>, s: Sup, pid: int)
      requires Reaping(v, order, s) && pid in s.zombies
      ensures Reaping(v, order + [pid], Bury(s, pid)) && Bury(s, pid).zombies < s.zombies
    {
      BuryKeeps(s, pid);
      BuryAllAppend(v, order, pid);
      ReapedMore(v, order, s, pid, Bury(s, pid));
    }

    lemma ReapedMore(v: Sup, order: seq<int>, s: Sup, pid: int, s': Sup)
      requires Reaping(v, order, s) && pid in s.zombies && Inv(s')
      requires s' == BuryAll(v, order + [pid]) && s'.zombies == s.zombies - {pid}
      ensures Reaping(v, order + [pid], s') && s'.zombies < s.zombies
    {
      assert forall p :: p in order + [pid] <==> p in order || p == pid;
    }

    lemma BuryAllAppend(v: Sup, order: seq<int>, pid: int)
      requires Fits(v)
      ensures BuryAll(v, order + [pid]) == Bury(BuryAll(v, order), pid)
    {
      assert (order + [pid])[..|order|] == order;
    }

    // ---------- card reports ----------

    // CDynamicPrcMngInfo::handleNewType
    method HandleNewType(mng: MngInfo, newCardType: int)
      requires Valid() && Inv(View()) && mng in t.mngs && Dynamic(View(), mng.idx)
      requires newCardType != mng.cardType ==> !Dropped(View(), mng.idx)
      modifies Repr()
      ensures Valid() && View() == SupModel.HandleNewType(old(View()), mng.idx, newCardType)
    {
      MngFacts(mng);
      assert MngBasic(View(), mng.idx);
      NewTypeCases(View(), mng.idx, newCardType);
      if newCardType == mng.cardType {
        SetCards(mng, mng.cardType, ETINDEV_NULL, mng.cnt4Filter, mng.seen + [newCardType]);
      } else if mng.cardType != ETINDEV_NULL {
        CardGone(mng);
      } else {
        assert newCardType != ETINDEV_NULL;
        FilterCard(mng, newCardType);
      }
    }

    // Steps 3 and 4 of handleNewType
    method FilterCard(mng: MngInfo, newCardType: int)
      requires Valid() && Fits(View()) && mng in t.mngs && Dynamic(View(), mng.idx) && mng.idx !in View().queue
      modifies Repr()
      ensures Valid() && View() == SupModel.FilterCard(old(View()), mng.idx, newCardType)
    {
      MngFacts(mng);
      FilterCardCases(View(), mng.idx, newCardType);
      if newCardType != mng.cardTypeNew {
        SetCards(mng, mng.cardType, newCardType, 0, mng.seen + [newCardType]);
      } else if mng.cnt4Filter + 1 < ONLINE_FILTER_COUNT || mng.child != null {
        SetCards(mng, mng.cardType, mng.cardTypeNew, mng.cnt4Filter + 1, mng.seen + [newCardType]);
      } else {
        AcceptCard(mng, newCardType);
      }
    }

    // Step 2 of handleNewType
    method CardGone(mng: MngInfo)
      requires Valid() && Inv(View()) && mng in t.mngs && Dynamic(View(), mng.idx)
      requires mng.cardType != ETINDEV_NULL && !Dropped(View(), mng.idx)
      modifies Repr()
      ensures Valid() && View() == SupModel.CardGone(old(View()), mng.idx)
    {
      MngFacts(mng);
      CardGoneCases(View(), mng.idx);
      if mng.child != null {
        CardGoneRunning(mng);
      } else {
        SetCards(mng, ETINDEV_NULL, ETINDEV_NULL, mng.cnt4Filter, []);
        DelFrom2Start(mng);
        var ret := IoctlOnOffLine(mng, ETINDEV_NULL);
      }
    }

    method CardGoneRunning(mng: MngInfo)
      requires Valid() && Inv(View()) && mng in t.mngs && Dynamic(View(), mng.idx) && mng.child != null
      modifies Repr()
      ensures Valid() && View() == SupModel.CardGone(old(View()), mng.idx)
    {
      MngFacts(mng);
      CardGoneCases(View(), mng.idx);
      var obj := mng.child;
      RecFacts(obj);
      BusyFacts(obj);
      assert obj.state != Null by { assert LinkOk(View(), mng.idx) && RecOk(View(), obj.idx); }
      SetCards(mng, ETINDEV_NULL, ETINDEV_NULL, mng.cnt4Filter, []);
      RecFacts(obj);
      if obj.state == Normal { STerm(obj); }
    }

    // The end of step 4 of handleNewType
    method AcceptCard(mng: MngInfo, newCardType: int)
      requires Valid() && Fits(View()) && mng in t.mngs && Dynamic(View(), mng.idx) && mng.idx !in View().queue
      modifies Repr()
      ensures Valid() && View() == SupModel.AcceptCard(old(View()), mng.idx, newCardType)
    {
      TakeCard(mng, newCardType);
      AddIn2Start(mng);
    }

    // The card is recorded and brought on line; whether that succeeds makes no difference.
    method TakeCard(mng: MngInfo, newCardType: int)
      requires Valid() && Fits(View()) && mng in t.mngs && Dynamic(View(), mng.idx)
      modifies Repr()
      ensures Valid() && View() == OnOffLine(Carded(old(View()), mng.idx, newCardType), mng.idx, newCardType).0
      ensures View().queue == old(View()).queue
    {
      MngFacts(mng);
      SetCards(mng, newCardType, ETINDEV_NULL, 0, mng.seen + [newCardType]);
      assert View() == Carded(old(View()), mng.idx, newCardType);
      OnOffLineFrame(View(), mng.idx, newCardType);
      var ret := IoctlOnOffLine(mng, newCardType);
    }

    // sHandleCardChange, and one slot's part of sCheckDevChange
    method SHandleCardChange(slot: int, cardType: int) returns (ret: int)
      requires Valid() && Inv(View()) && !Faults(View(), slot, cardType)
      modifies Repr()
      ensures Valid() && View() == HandleCardChange(old(View()), slot, cardType)
      ensures var g := old(View()).drv;
              ret == if SlotErr(g, slot) || cardType < ETINDEV_NULL || |g.types| <= cardType then -1 else 0
    {
      if slot < 0 || drv.slots.Length <= slot || cardType < ETINDEV_NULL || drv.types.Length <= cardType { return -1; }
      if slot !in care { return 0; }
      HandleNewType(t.mngs[slot], cardType);
      ret := 0;
    }

    // sCheckDevChange, once the card types have been read
    method SCheckDevChange(cardTypes: seq<int>)
      requires Valid() && Inv(View()) && !CheckDevChange(View(), cardTypes, |cardTypes|).faulted
      modifies Repr()
      ensures Valid() && View() == CheckDevChange(old(View()), cardTypes, |cardTypes|)
    {
      for i := 0 to |cardTypes|
        invariant Valid() && View() == CheckDevChange(old(View()), cardTypes, i)
      {
        PollFacts(old(View()), cardTypes, i);
        var ret := SHandleCardChange(i, cardTypes[i]);
      }
    }

    // In a poll without fault, the next slot's turn comes in order and is without fault.
    lemma PollFacts(s: Sup, cards: seq<int>, n: nat)
      requires Inv(s) && n < |cards| && !CheckDevChange(s, cards, |cards|).faulted
      ensures var s' := CheckDevChange(s, cards, n); Inv(s') && !Faults(s', n, cards[n])
    {
      var st := PollStates(s, cards);
      PollTurnSafe(st, cards, n);
    }

    // ---------- start and shutdown ----------

    ghost function Upto(lo: nat, hi: nat): seq<nat>
      requires lo <= hi
    {
      seq(hi - lo, i requires 0 <= i < hi - lo => lo + i)
    }

    lemma UptoNext(lo: nat, hi: nat)
      requires lo <= hi
      ensures Upto(lo, lo) == [] && Upto(lo, hi) + [hi] == Upto(lo, hi + 1)
      ensures forall x :: x in Upto(lo, hi) ==> x < hi
    {
    }

    // sInitPool
    method InitPool()
      requires Valid() && View().lists == [[], [], [], []]
      modifies Repr()
      ensures Valid() && View() == old(View()).(lists := [Upto(0, |t.recs|), [], [], []])
    {
      ghost var v := View();
      UptoNext(0, 0);
      for i := 0 to |t.recs|
        invariant Valid() && View() == v.(lists := [Upto(0, i), [], [], []])
      {
        PoolOne(i, v);
      }
    }

    // The body of the loop of sInitPool
    method PoolOne(i: nat, ghost v: Sup)
      requires Valid() && i < |t.recs| && View() == v.(lists := [Upto(0, i), [], [], []])
      modifies Repr()
      ensures Valid() && View() == v.(lists := [Upto(0, i + 1), [], [], []])
    {
      RecFacts(t.recs[i]);
      UptoNext(0, i);
      recLists.AddTail(POOL, t.recs[i].link);
    }

    // CStaticPrcMngInfo::sStart
    method StartStatic()
      requires Valid() && View().queue == [] && drv.slots.Length <= |t.mngs|
      modifies Repr()
      ensures Valid() && View() == old(View()).(
                startTimer := old(startTimer) || drv.slots.Length < |t.mngs|, queue := Upto(drv.slots.Length, |t.mngs|))
    {
      ghost var v, n := View(), drv.slots.Length;
      UptoNext(n, n);
      for m := drv.slots.Length to |t.mngs|
        invariant Valid() && View() == QueuedTo(v, n, m)
      {
        QueueStatic(m, v, n);
      }
    }

    // The managers from n to m are queued.
    ghost function QueuedTo(v: Sup, n: nat, m: nat): Sup
      requires n <= m
    {
      v.(startTimer := v.startTimer || n < m, queue := Upto(n, m))
    }

    // The body of the loop of sStart
    method QueueStatic(m: nat, ghost v: Sup, ghost n: nat)
      requires Valid() && n <= m < |t.mngs| && View() == QueuedTo(v, n, m)
      modifies Repr()
      ensures Valid() && View() == QueuedTo(v, n, m + 1)
    {
      UptoNext(n, m);
      AddIn2Start(t.mngs[m]);
    }

    // The sStart functions, as CProcessPdm::Start calls them
    method SStart()
      requires Valid() && drv.slots.Length <= |t.mngs| == |t.recs|
      requires View() == Sup(seq(|t.mngs|, _ => FREE_REC), seq(|t.mngs|, _ => FRESH_MNG), [[], [], [], []], [],
                             false, false, false, false, false, {}, {}, drv.View(), needKill, care, self)
      modifies Repr()
      ensures Valid() && Shape(old(drv.View()))
      ensures View() == Init(drv.slots.Length, |t.mngs| - drv.slots.Length, old(drv.View()), needKill, care, self)
    {
      InitPool();
      StartStatic();
      assert Upto(0, |t.mngs|) == seq(|t.mngs|, i => i);
    }

    // CPrcMngInfo::Term4Stop and Kill4Stop
    method Signal4Stop(mng: MngInfo, kill: bool)
      requires Valid() && Fits(View()) && mng in t.mngs
      requires mng.child != null ==> mng.child.state in {Normal, Exiting} && mng.child.pid in os.alive + os.zombies
      modifies Repr()
      ensures Valid() && mng.idx < |old(View().mngs)| && View() == SupShutdown.Signal4Stop(old(View()), mng.idx, kill)
    {
      MngFacts(mng);
      if mng.child == null { return; }
      RecFacts(mng.child);
      if kill { SignalKill(mng.child); } else { SignalTerm(mng.child); }
    }

    // Every process may be signalled.
    ghost predicate Signallable(s: Sup) {
      && Weak(s) && ChildrenOk(s)
      && SignalsAllowed(s)
    }

    // The two predicates below state an equation for every q that is p, so that a method that only passes
    // them on does not unfold it.
    ghost predicate Is(q: seq<nat>, p: seq<nat>) { q == p }

    // s is the state after the managers of p have been signalled, beginning with v.
    ghost predicate SignalledTo(v: Sup, p: seq<nat>, kill: bool, s: Sup) {
      Signallable(v) && Below(p, |v.mngs|) && forall q {:trigger Is(q, p)} :: Is(q, p) ==> s == SignalAll(v, q, kill)
    }

    lemma SignalFacts(v: Sup, p: seq<nat>, m: nat, kill: bool, s: Sup)
      requires SignalledTo(v, p, kill, s) && NoDup(p + [m]) && m < |v.mngs|
      ensures Fits(s) && m < |s.mngs| && SignalledTo(v, p + [m], kill, SupShutdown.Signal4Stop(s, m, kill))
      ensures s.mngs[m].child.Some? ==>
                var r := s.mngs[m].child.value; s.recs[r].state in {Normal, Exiting} && s.recs[r].pid in Children(s)
    {
      NoDupFront(p, m);
      assert Is(p, p) && s == SignalAll(v, p, kill);
      SignalAllSignals(v, p, kill);
      assert Front(p + [m]) == p && Last(p + [m]) == m;
      if s.mngs[m].child.Some? {
        var r := s.mngs[m].child.value;
        assert LinkOk(v, m) && RecWeak(v, r);
        assert v.recs[r].pid in Pids(v.recs);
      }
    }

    // The body of the loops of sTerm4Stop and sKill4Stop; the managers of p have been through.
    method SignalOne(m: nat, kill: bool, ghost v: Sup, ghost p: seq<nat>)
      requires Valid() && m < |t.mngs| == |v.mngs| && SignalledTo(v, p, kill, View()) && NoDup(p + [m])
      modifies Repr()
      ensures Valid() && SignalledTo(v, p + [m], kill, View())
    {
      SignalFacts(v, p, m, kill, View());
      MngFacts(t.mngs[m]);
      if t.mngs[m].child != null { RecFacts(t.mngs[m].child); }
      Signal4Stop(t.mngs[m], kill);
    }

    lemma NoDupFront(p: seq<nat>, m: nat)
      requires NoDup(p + [m])
      ensures NoDup(p) && m !in p
    {
      assert forall i :: 0 <= i < |p| ==> (p + [m])[i] == p[i];
      assert (p + [m])[|p|] == m;
    }

    // A phase goes through the managers of all. The loop over a class, which begins at lo, stands before
    // manager i - 1: all but those from there down have been through.
    ghost predicate Before(all: seq<nat>, lo: nat, i: nat) {
      lo <= i && NoDup(all) && i - lo <= |all| && all[|all| - (i - lo)..] == Down(lo, i)
    }

    ghost function Through(all: seq<nat>, lo: nat, i: nat): seq<nat>
      requires Before(all, lo, i)
    {
      all[..|all| - (i - lo)]
    }

    lemma OneThrough(all: seq<nat>, lo: nat, i: nat)
      requires Before(all, lo, i) && lo < i
      ensures Before(all, lo, i - 1)
      ensures var p := Through(all, lo, i);
              Through(all, lo, i - 1) == p + [(i - 1) as nat] && NoDup(p + [(i - 1) as nat])
    {
      var n := |all| - (i - lo);
      assert forall j :: 0 <= j < i - lo ==> all[n + j] == all[n..][j] == Down(lo, i)[j];
      assert all[..n + 1] == all[..n] + [(i - 1) as nat];
      assert forall j :: 0 <= j <= n ==> all[..n + 1][j] == all[j];
    }

    // Before the first class, between the first and the second, and after both
    lemma Classes(n: nat, k: nat)
      requires n <= k && NoDup(Down(0, n) + Down(n, k))
      ensures var first, all := Down(0, n), Down(0, n) + Down(n, k);
              && Before(first, 0, n) && Through(first, 0, n) == []
              && Before(first, 0, 0) && Through(first, 0, 0) == first
              && Before(all, n, k) && Through(all, n, k) == first
              && Before(all, n, n) && Through(all, n, n) == all
    {
      var first, all := Down(0, n), Down(0, n) + Down(n, k);
      assert all[..n] == first && all[n..] == Down(n, k) && first[..n] == first && all[..|all|] == all;
      assert forall j :: 0 <= j < n ==> all[j] == first[j];
    }

    ghost predicate SignalAt(v: Sup, all: seq<nat>, lo: nat, i: nat, kill: bool)
      reads Repr()
    {
      Valid() && i <= |t.mngs| == |v.mngs| && Before(all, lo, i) && SignalledTo(v, Through(all, lo, i), kill, View())
    }

    // One loop of sTerm4Stop or sKill4Stop, from the last manager to the first
    method SSignal4Stop(lo: nat, hi: nat, kill: bool, ghost v: Sup, ghost all: seq<nat>)
      requires SignalAt(v, all, lo, hi, kill)
      modifies Repr()
      ensures SignalAt(v, all, lo, lo, kill)
    {
      var i := hi;
      while i > lo
        invariant lo <= i && SignalAt(v, all, lo, i, kill)
      {
        SignalNext(v, all, lo, i, kill);
        i := i - 1;
      }
    }

    method SignalNext(ghost v: Sup, ghost all: seq<nat>, ghost lo: nat, i: nat, kill: bool)
      requires SignalAt(v, all, lo, i, kill) && lo < i
      modifies Repr()
      ensures SignalAt(v, all, lo, i - 1, kill)
    {
      OneThrough(all, lo, i);
      SignalOne(i - 1, kill, v, Through(all, lo, i));
    }

    // sTerm4Stop or sKill4Stop of both kinds of managers
    method SSignalAll(kill: bool)
      requires Valid() && Signallable(View())
      modifies Repr()
      ensures Valid() && View() == SignalAll(old(View()), StopOrder(old(View())), kill)
    {
      ghost var v := View();
      StopOrderCovers(v);
      Classes(|v.drv.slots|, |v.mngs|);
      SSignal4Stop(0, drv.slots.Length, kill, v, Down(0, |v.drv.slots|));
      SSignal4Stop(drv.slots.Length, |t.mngs|, kill, v, StopOrder(v));
      assert Is(StopOrder(v), StopOrder(v));
    }

    // ---------- the last phase of shutdown ----------

    // s is the state after the managers of p have been stopped, beginning with v.
    ghost predicate StoppedTo(v: Sup, p: seq<nat>, s: Sup) {
      Weak(v) && v.exitFlag && Below(p, |v.mngs|) && forall q {:trigger Is(q, p)} :: Is(q, p) ==> s == StopAll(v, q)
    }

    lemma StopFacts(v: Sup, p: seq<nat>, m: nat, s: Sup)
      requires StoppedTo(v, p, s) && NoDup(p + [m]) && m < |v.mngs|
      ensures Stoppable(s, m) && StoppedTo(v, p + [m], SupModel.Stop(s, m))
    {
      NoDupFront(p, m);
      assert Is(p, p) && s == StopAll(v, p);
      StopAllStops(v, p);
      WeakStoppable(s, m);
      OneMoreStopped(v, p, m, s);
    }

    lemma WeakStoppable(s: Sup, m: nat)
      requires Weak(s) && m < |s.mngs|
      ensures Stoppable(s, m)
    {
      assert LinkOk(s, m);
      if s.mngs[m].child.Some? { assert RecWeak(s, s.mngs[m].child.value); }
    }

    lemma OneMoreStopped(v: Sup, p: seq<nat>, m: nat, s: Sup)
      requires Weak(v) && v.exitFlag && Below(p, |v.mngs|) && s == StopAll(v, p) && m < |v.mngs|
      ensures StoppedTo(v, p + [m], SupModel.Stop(s, m))
    {
      assert Front(p + [m]) == p && Last(p + [m]) == m;
    }

    // The body of the loops of the two sStop functions
    method StopOne(m: nat, ghost v: Sup, ghost p: seq<nat>)
      requires Valid() && m < |t.mngs| == |v.mngs| && StoppedTo(v, p, View()) && NoDup(p + [m])
      modifies Repr()
      ensures Valid() && StoppedTo(v, p + [m], View())
    {
      StopFacts(v, p, m, View());
      Stop(t.mngs[m]);
    }

    ghost predicate StopAt(v: Sup, all: seq<nat>, lo: nat, i: nat)
      reads Repr()
    {
      Valid() && i <= |t.mngs| == |v.mngs| && Before(all, lo, i) && StoppedTo(v, Through(all, lo, i), View())
    }

    // The loop of a class's sStop, from the last manager to the first
    method SStopClass(lo: nat, hi: nat, ghost v: Sup, ghost all: seq<nat>)
      requires StopAt(v, all, lo, hi)
      modifies Repr()
      ensures StopAt(v, all, lo, lo)
    {
      var i := hi;
      while i > lo
        invariant lo <= i && StopAt(v, all, lo, i)
      {
        StopNext(v, all, lo, i);
        i := i - 1;
      }
    }

    method StopNext(ghost v: Sup, ghost all: seq<nat>, ghost lo: nat, i: nat)
      requires StopAt(v, all, lo, i) && lo < i
      modifies Repr()
      ensures StopAt(v, all, lo, i - 1)
    {
      OneThrough(all, lo, i);
      StopOne(i - 1, v, Through(all, lo, i));
    }

    // Children die while the supervisor sleeps.
    method Sleep(dead: set<int>)
      requires Valid() && Fits(View())
      modifies Repr()
      ensures Valid() && View() == Die(old(View()), dead)
    {
      os.alive, os.zombies := os.alive - dead, os.zombies + os.alive * dead;
    }

    method SetExitFlag()
      requires Valid()
      modifies Repr()
      ensures Valid() && View() == old(View()).(exitFlag := true)
    {
      exitFlag := true;
    }

    // CDynamicPrcMngInfo::sStop and CStaticPrcMngInfo::sStop
    method SStop()
      requires Valid() && Weak(View()) && View().exitFlag
      modifies Repr()
      ensures Valid() && View() == StopAll(old(View()), StopOrder(old(View())))
    {
      ghost var v := View();
      StopOrderCovers(v);
      Classes(|v.drv.slots|, |v.mngs|);
      SStopClass(0, drv.slots.Length, v, Down(0, |v.drv.slots|));
      SStopClass(drv.slots.Length, |t.mngs|, v, StopOrder(v));
      assert Is(StopOrder(v), StopOrder(v));
    }

    lemma ShutdownFacts(v: Sup, dead1: set<int>, dead2: set<int>)
      requires Inv(v) && v.lists[KILLING] == []
      ensures Signallable(v)
      ensures var s1 := Termed4Stop(v, dead1); Signallable(s1) && StopOrder(s1) == StopOrder(v)
      ensures var s2 := Signalled(v, dead1, dead2); Weak(s2) && s2.exitFlag && StopOrder(s2) == StopOrder(v)
    {
      CoreIsWeak(v);
      SignalsAllowedIff(v, dead1);
      PhasesKill(v, dead1, dead2);
      PhaseSignalsAll(v, false);
      var k := SignalAll(v, StopOrder(v), false);
      DieKeepsWeak(k, dead1);
      var s1 := Die(k, dead1);
      assert Children(s1) == Children(v);
    }

    // CProcessPdm::Stop; dead1 and dead2 die during its two sleeps.
    method ProcessStop(dead1: set<int>, dead2: set<int>)
      requires Valid() && Inv(View()) && View().lists[KILLING] == []
      modifies Repr()
      ensures Valid() && View() == Shutdown(old(View()), dead1, dead2)
    {
      ghost var v := View();
      ShutdownFacts(v, dead1, dead2);
      SSignalAll(false);
      Sleep(dead1);
      SSignalAll(true);
      Sleep(dead2);
      SetExitFlag();
      SStop();
      SetTimers(false, false, false);
    }

    // ---------- the event loop ----------

    // Handlers that work on records alone.
    method ReactRecords(e: Event)
      requires Valid() && Inv(View()) && (e.HelloTick? || e.HelloAck? || e.SpvTick? || e.TermTick?)
      modifies Repr()
      ensures Valid() && Fits(old(View())) && View() == Step(old(View()), e)
    {
      match e
      case HelloTick => CoreNormals(View()); SHello4Live();
      case HelloAck(pid) => var ret := SUpdateLiveState(pid);
      case SpvTick => SCheckLiveState();
      case TermTick => InvHeads(View()); SCheckTermTimeout();
    }

    // Handlers that work on managers.
    method ReactManagers(e: Event)
      requires Valid() && Inv(View()) && Possible(View(), e) && !Step(View(), e).faulted
      requires e.KillTick? || e.StartTick? || e.CardReport? || e.CardPoll?
      modifies Repr()
      ensures Valid() && Fits(old(View())) && View() == Step(old(View()), e)
    {
      match e
      case KillTick => InvHeads(View()); SCheckKillTimeout();
      case StartTick(fork) => CoreStartable(View()); SCheckNeedStart(fork);
      case CardReport(slot, card) => ReportFaultsIff(View(), slot, card); var ret := SHandleCardChange(slot, card);
      case CardPoll(cards) => SCheckDevChange(cards);
    }

    // An event the program survives.
    ghost predicate Survived(v: Sup, e: Event)
      requires Fits(v)
    {
      e.SigChld? || (Possible(v, e) && !Step(v, e).faulted)
    }

    // One turn of the event loop, whatever the driver answers. What happens is a step of the model: `done`
    // is the event as it turned out, e itself but for the order in which zombies are handed out.
    method React(e: Event) returns (ghost done: Event)
      requires Valid() && Inv(View()) && !e.DriverEvent? && Survived(View(), e)
      modifies Repr()
      ensures Valid() && Fits(old(View())) && Possible(old(View()), done) && View() == Step(old(View()), done)
      ensures if e.SigChld? then done.SigChld? else done == e
      ensures Inv(View()) && (old(Agrees(View()) && CallbacksOk(View())) ==> Agrees(View()))
    {
      ghost var v := View();
      done := Dispatch(e);
      if e.SigChld? { OthersNeverFault(v, done); }
      StepKeeps(v, done);
    }

    method Dispatch(e: Event) returns (ghost done: Event)
      requires Valid() && Inv(View()) && !e.DriverEvent? && Survived(View(), e)
      modifies Repr()
      ensures Valid() && Fits(old(View())) && Possible(old(View()), done) && View() == Step(old(View()), done)
      ensures if e.SigChld? then done.SigChld? else done == e
    {
      done := e;
      if e.SigChld? {
        var order := SBuryChld();
        done := SigChld(order);
      } else if e.Dies? {
        ChildDies(e.pid);
      } else if e.KillTick? || e.StartTick? || e.CardReport? || e.CardPoll? {
        ReactManagers(e);
      } else {
        ReactRecords(e);
      }
    }

    // The environment: a child dies.
    method ChildDies(pid: int)
      requires Valid()
      modifies Repr()
      ensures Valid() && View() == old(View()).(alive := old(os.alive) - {pid}, zombies := old(os.zombies) + {pid})
    {
      os.alive, os.zombies := os.alive - {pid}, os.zombies + {pid};
    }
  }
}
