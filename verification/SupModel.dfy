// The process supervisor of pdm/src as a state machine on values: one function per source function.
// Assertions are those of a release build, i.e. absent; that they hold is proved elsewhere. The one call
// that can go wrong, taking a manager off a queue it is not in, sets `faulted`; what the functions make of
// a state after that means nothing, and no run goes on from one.

module SupModel {
  import opened Wrappers
  import opened Queues
  import opened Registry

  const DIFF_SPV_HELLO := 5
  const ONLINE_FILTER_COUNT := 3

  // The four record lists.
  const POOL: nat := 0
  const NORMAL: nat := 1
  const EXITING: nat := 2
  const KILLING: nat := 3

  datatype PrcState = Null | Normal | Exiting | Killing

  datatype Signal = SigTerm | SigKill

  // CRtPrcInfo. `sent` records the signals sent to the present incarnation of the child.
  datatype Rec = Rec(state: PrcState, pid: int, nExp: int, nReal: int, parent: Option<nat>, sent: seq<Signal>)

  const FREE_REC := Rec(Null, -1, 0, 0, None, [])

  // An on/off-line ioctl issued for a slot: the card given, and the card the driver had there before.
  datatype IoCall = IoCall(card: int, before: int)

  // CPrcMngInfo. The card fields are used by dynamic managers only. `seen` records the reports since
  // the last card left the slot, `io` the ioctls issued for the slot.
  datatype Mng = Mng(child: Option<nat>, card: int, cardNew: int, cnt: int, seen: seq<int>, io: seq<IoCall>)

  const FRESH_MNG := Mng(None, ETINDEV_NULL, ETINDEV_NULL, 0, [], [])

  // Managers 0..|drv.slots| are the dynamic ones, manager d serving slot d; the others are static.
  datatype Sup = Sup(
    recs: seq<Rec>,
    mngs: seq<Mng>,
    lists: seq<seq<nat>>,  // record lists, by the constants above
    queue: seq<nat>,       // s_list2Start
    startTimer: bool, termTimer: bool, killTimer: bool,  // armed?
    exitFlag: bool,
    faulted: bool,         // the program has written through a null pointer and is gone
    alive: set<int>,       // forked, not yet dead
    zombies: set<int>,     // dead, not yet reaped
    drv: Reg,
    needKill: bool,        // s_needKillPrc
    care: set<int>,        // s_slot_care_bmp
    self: int)             // minor of the device file

  predicate Dynamic(s: Sup, m: nat) { m < |s.drv.slots| }

  function ListOf(st: PrcState): (k: nat)
    ensures k < 4
  {
    match st case Null => POOL case Normal => NORMAL case Exiting => EXITING case Killing => KILLING
  }

  // Indices are in range; nothing more.
  ghost predicate Fits(s: Sup) {
    && |s.lists| == 4
    && Shape(s.drv) && |s.drv.slots| <= |s.mngs|
    && (forall k {:trigger s.lists[k]} :: 0 <= k < 4 ==> Below(s.lists[k], |s.recs|))
    && Below(s.queue, |s.mngs|)
    && (forall i {:trigger s.recs[i]} :: 0 <= i < |s.recs| && s.recs[i].parent.Some? ==>
          s.recs[i].parent.value < |s.mngs|)
    && (forall m {:trigger s.mngs[m]} :: 0 <= m < |s.mngs| && s.mngs[m].child.Some? ==>
          s.mngs[m].child.value < |s.recs|)
  }

  // Nothing but the contents of the tables and lists may change.
  ghost predicate SameConfig(s: Sup, s': Sup) {
    && |s'.recs| == |s.recs| && |s'.mngs| == |s.mngs|
    && |s'.drv.slots| == |s.drv.slots| && |s'.drv.types| == |s.drv.types|
    && s'.needKill == s.needKill && s'.care == s.care && s'.self == s.self
  }

  // The children and the driver's answers do not change.
  ghost predicate SameEnv(s: Sup, s': Sup) {
    s'.alive == s.alive && s'.zombies == s.zombies && s'.drv.cbRet == s.drv.cbRet && s'.exitFlag == s.exitFlag
  }

  // ---------- records: pdm/src/rt_prc_info.cpp ----------

  function SetRec(s: Sup, r: nat, v: Rec): Sup
    requires r < |s.recs|
  {
    s.(recs := s.recs[r := v])
  }

  function SetMng(s: Sup, m: nat, v: Mng): Sup
    requires m < |s.mngs|
  {
    s.(mngs := s.mngs[m := v])
  }

  function Move(s: Sup, k: nat, r: nat): (s': Sup)
    requires Fits(s) && k < 4 && r < |s.recs|
    ensures Fits(s') && SameConfig(s, s')
  {
    s.(lists := Accept(s.lists, k, r))
  }

  // sCapture; fork is what fork returned: a pid, or negative on failure. A start that fails earlier,
  // for want of a name, ends like a failed fork.
  function Capture(s: Sup, m: nat, fork: int): (r: (Sup, int))
    requires Fits(s) && m < |s.mngs|
    ensures Fits(r.0) && SameConfig(s, r.0)
  {
    if s.lists[POOL] == [] || fork < 0 then (s, -1)
    else
      var r := First(s.lists[POOL]);
      var s1 := SetRec(s, r, s.recs[r].(state := Normal, pid := fork, parent := Some(m), sent := []));
      var s2 := SetMng(s1, m, s.mngs[m].(child := Some(r)));
      (Move(s2.(alive := s.alive + {fork}), NORMAL, r), 0)
  }

  // sRelease: waitpid gives the pid of a zombie, 0 for a live child, and ECHILD for a pid reaped before.
  function Release(s: Sup, r: nat): (res: (Sup, int))
    requires Fits(s) && r < |s.recs| && s.recs[r].parent.Some?
    ensures Fits(res.0) && SameConfig(s, res.0)
  {
    if s.recs[r].pid in s.alive then (s, -1)
    else
      var m := s.recs[r].parent.value;
      var s1 := SetRec(s.(zombies := s.zombies - {s.recs[r].pid}), r, FREE_REC);
      (Move(SetMng(s1, m, s.mngs[m].(child := None)), POOL, r), 0)
  }

  function SignalTerm(s: Sup, r: nat): (s': Sup)
    requires Fits(s) && r < |s.recs|
    ensures Fits(s') && SameConfig(s, s')
  {
    SetRec(s, r, s.recs[r].(state := Exiting, sent := s.recs[r].sent + [SigTerm]))
  }

  function SignalKill(s: Sup, r: nat): (s': Sup)
    requires Fits(s) && r < |s.recs|
    ensures Fits(s') && SameConfig(s, s')
  {
    SetRec(s, r, s.recs[r].(state := Killing, sent := s.recs[r].sent + [SigKill]))
  }

  function ClrTimes(s: Sup, r: nat): (s': Sup)
    requires Fits(s) && r < |s.recs|
    ensures Fits(s') && SameConfig(s, s')
  {
    SetRec(s, r, s.recs[r].(nExp := 0, nReal := 0))
  }

  // sTerm
  function Term(s: Sup, r: nat): (s': Sup)
    requires Fits(s) && r < |s.recs|
    ensures Fits(s') && SameConfig(s, s') && SameEnv(s, s')
  {
    var s1 := ClrTimes(SignalTerm(s, r), r);
    Move(s1.(termTimer := s.termTimer || s.lists[EXITING] == []), EXITING, r)
  }

  // sKill
  function Kill(s: Sup, r: nat): (s': Sup)
    requires Fits(s) && r < |s.recs|
    ensures Fits(s') && SameConfig(s, s')
  {
    if !s.needKill then s
    else
      var s1 := ClrTimes(SignalKill(s, r), r);
      Move(s1.(killTimer := s.killTimer || s.lists[KILLING] == []), KILLING, r)
  }

  predicate IsLive(v: Rec) { v.nExp - v.nReal < DIFF_SPV_HELLO }

  // One record's part of sCheckLiveState.
  function Supervise(s: Sup, r: nat): (s': Sup)
    requires Fits(s) && r < |s.recs|
    ensures Fits(s') && SameConfig(s, s')
  {
    if IsLive(s.recs[r]) then ClrTimes(s, r) else Kill(s, r)
  }

  // sCheckLiveState on the records of q in turn.
  function SuperviseAll(s: Sup, q: seq<nat>): (s': Sup)
    requires Fits(s) && Below(q, |s.recs|)
    ensures Fits(s') && SameConfig(s, s')
  {
    if q == [] then s else Supervise(SuperviseAll(s, Front(q)), Last(q))
  }

  function CheckLiveState(s: Sup): (s': Sup)
    requires Fits(s)
    ensures Fits(s') && SameConfig(s, s')
  {
    SuperviseAll(s, s.lists[NORMAL])
  }

  // sHello4Live: every record of the Normal list expects one more acknowledgement.
  function Hello4Live(s: Sup): (s': Sup)
    requires Fits(s)
    ensures Fits(s') && SameConfig(s, s')
  {
    s.(recs := seq(|s.recs|, i requires 0 <= i < |s.recs| =>
                     if i in s.lists[NORMAL] then s.recs[i].(nExp := s.recs[i].nExp + 1) else s.recs[i]))
  }

  // sFindObj
  function FindObj(recs: seq<Rec>, q: seq<nat>, pid: int): (o: Option<nat>)
    requires Below(q, |recs|)
    ensures o.Some? ==> o.value in q && recs[o.value].pid == pid
    ensures o.None? ==> forall i :: i in q ==> recs[i].pid != pid
  {
    if q == [] then None
    else if recs[First(q)].pid == pid then Some(First(q))
    else assert forall i :: i in q[1..] ==> i in q; FindObj(recs, q[1..], pid)
  }

  // sUpdateLiveState
  function UpdateLiveState(s: Sup, pid: int): (s': Sup)
    requires Fits(s)
    ensures Fits(s') && SameConfig(s, s')
  {
    match FindObj(s.recs, s.lists[NORMAL], pid)
    case None => s
    case Some(r) => SetRec(s, r, s.recs[r].(nReal := s.recs[r].nReal + 1))
  }

  // sCheckTermTimeout
  function CheckTermTimeout(s: Sup): (s': Sup)
    requires Fits(s)
    ensures Fits(s') && SameConfig(s, s')
  {
    var s1 := if s.lists[EXITING] == [] then s else Kill(s, First(s.lists[EXITING]));
    if s1.lists[EXITING] == [] then s1.(termTimer := false) else s1
  }

  // sCheckKillTimeout
  function CheckKillTimeout(s: Sup): (s': Sup)
    requires Fits(s)
    ensures Fits(s') && SameConfig(s, s')
  {
    var s1 := if s.lists[KILLING] == [] then s else StopParent(s, First(s.lists[KILLING]));
    if s1.lists[KILLING] == [] then s1.(killTimer := false) else s1
  }

  // The manager of a record is stopped; a record without a manager is left alone.
  function StopParent(s: Sup, r: nat): (s': Sup)
    requires Fits(s) && r < |s.recs|
    ensures Fits(s') && SameConfig(s, s')
  {
    match s.recs[r].parent case None => s case Some(m) => Stop(s, m)
  }

  // The record of a reaped pid, looked up as sBuryChld does.
  function FindBusy(s: Sup, pid: int): (o: Option<nat>)
    requires Fits(s)
    ensures o.Some? ==> o.value < |s.recs| && s.recs[o.value].pid == pid
    ensures o.Some? ==> o.value in s.lists[KILLING] || o.value in s.lists[EXITING] || o.value in s.lists[NORMAL]
    ensures o.None? ==> forall k, i :: 1 <= k < 4 && i in s.lists[k] ==> s.recs[i].pid != pid
  {
    var k := FindObj(s.recs, s.lists[KILLING], pid);
    if k.Some? then k
    else
      var e := FindObj(s.recs, s.lists[EXITING], pid);
      if e.Some? then e else FindObj(s.recs, s.lists[NORMAL], pid)
  }

  // One round of the loop of sBuryChld, for the zombie waitpid(-1) returned.
  function Bury(s: Sup, pid: int): (s': Sup)
    requires Fits(s)
    ensures Fits(s') && SameConfig(s, s')
  {
    var s1 := s.(zombies := s.zombies - {pid});
    match FindBusy(s1, pid) case None => s1 case Some(r) => StopParent(s1, r)
  }

  function BuryAll(s: Sup, pids: seq<int>): (s': Sup)
    requires Fits(s)
    ensures Fits(s') && SameConfig(s, s')
  {
    if pids == [] then s else Bury(BuryAll(s, pids[..|pids| - 1]), pids[|pids| - 1])
  }

  // ---------- managers: pdm/src/prc_mng_info.cpp, static_prc_info.cpp, dynamic_prc_info.cpp ----------

  function AddIn2Start(s: Sup, m: nat): (s': Sup)
    requires Fits(s) && m < |s.mngs|
    ensures Fits(s') && SameConfig(s, s')
  {
    s.(startTimer := s.startTimer || s.queue == [], queue := s.queue + [m])
  }

  // A manager that has left the queue has null links, and taking it out again writes through them.
  function DelFrom2Start(s: Sup, m: nat): (s': Sup)
    requires Fits(s)
    ensures Fits(s') && SameConfig(s, s')
  {
    s.(queue := Del(s.queue, m), faulted := s.faulted || m !in s.queue)
  }

  // The ioctl PDM_IOC_CARD_ON_OFF_LINE for the slot of dynamic manager m.
  function OnOffLine(s: Sup, m: nat, card: int): (r: (Sup, int))
    requires Fits(s) && Dynamic(s, m)
    ensures Fits(r.0) && SameConfig(s, r.0) && SameEnv(s, r.0)
  {
    var (drv, ret) := Ioctl(s.drv, s.self, m, card);
    var io := s.mngs[m].io + [IoCall(card, s.drv.slots[m].card)];
    (SetMng(s.(drv := drv), m, s.mngs[m].(io := io)), ret)
  }

  // CPrcMngInfo::stop with the two versions of subStop
  function Stop(s: Sup, m: nat): (s': Sup)
    requires Fits(s) && m < |s.mngs|
    ensures Fits(s') && SameConfig(s, s')
  {
    match s.mngs[m].child
    case None => s
    case Some(r) =>
      if s.recs[r].parent.None? then s
      else
        var (s1, ret) := Release(s, r);
        if ret < 0 then s1
        else if !Dynamic(s, m) then AddIn2Start(s1, m)
        else Restart(s1, m)
  }

  // CDynamicPrcMngInfo::subStop after the release: the old card goes off line, the present one on line.
  function Restart(s: Sup, m: nat): (s': Sup)
    requires Fits(s) && Dynamic(s, m)
    ensures Fits(s') && SameConfig(s, s')
  {
    var (s1, ret1) := OnOffLine(s, m, ETINDEV_NULL);
    if ret1 < 0 || s.mngs[m].card == ETINDEV_NULL || s.exitFlag then s1
    else
      var (s2, ret2) := OnOffLine(s1, m, s.mngs[m].card);
      if ret2 < 0 then s2 else AddIn2Start(s2, m)
  }

  // CPrcMngInfo::start with the two versions of subStart
  function Start(s: Sup, m: nat, fork: int): (s': Sup)
    requires Fits(s) && m < |s.mngs|
    ensures Fits(s') && SameConfig(s, s')
  {
    if s.mngs[m].child.Some? then s
    else if Dynamic(s, m) && s.mngs[m].card == ETINDEV_NULL then DelFrom2Start(s, m)
    else
      var (s1, ret) := Capture(s, m, fork);
      if ret < 0 then s1 else DelFrom2Start(s1, m)
  }

  // sCheckNeedStart
  function CheckNeedStart(s: Sup, fork: int): (s': Sup)
    requires Fits(s)
    ensures Fits(s') && SameConfig(s, s')
  {
    var s1 := if s.queue == [] then s else Start(s, First(s.queue), fork);
    if s1.queue == [] then s1.(startTimer := false) else s1
  }

  // CDynamicPrcMngInfo::handleNewType
  function HandleNewType(s: Sup, d: nat, t: int): (s': Sup)
    requires Fits(s) && Dynamic(s, d)
    ensures Fits(s') && SameConfig(s, s') && SameEnv(s, s')
  {
    var g := s.mngs[d];
    if t == g.card then SetMng(s, d, g.(cardNew := ETINDEV_NULL, seen := g.seen + [t]))
    else if g.card != ETINDEV_NULL then CardGone(s, d)
    else FilterCard(s, d, t)
  }

  // Step 2 of handleNewType: the card left, or was replaced.
  function CardGone(s: Sup, d: nat): (s': Sup)
    requires Fits(s) && Dynamic(s, d)
    ensures Fits(s') && SameConfig(s, s') && SameEnv(s, s')
  {
    var g := s.mngs[d];
    var s1 := SetMng(s, d, g.(card := ETINDEV_NULL, cardNew := ETINDEV_NULL, seen := []));
    if g.child.None? then OnOffLine(DelFrom2Start(s1, d), d, ETINDEV_NULL).0
    else if s.recs[g.child.value].state == Normal then Term(s1, g.child.value)
    else s1
  }

  // Steps 3 and 4 of handleNewType: a card is accepted once it has been reported often enough.
  function FilterCard(s: Sup, d: nat, t: int): (s': Sup)
    requires Fits(s) && Dynamic(s, d)
    ensures Fits(s') && SameConfig(s, s') && SameEnv(s, s')
  {
    var g := s.mngs[d];
    if t != g.cardNew then SetMng(s, d, g.(cardNew := t, cnt := 0, seen := g.seen + [t]))
    else if g.cnt + 1 < ONLINE_FILTER_COUNT || g.child.Some? then
      SetMng(s, d, g.(cnt := g.cnt + 1, seen := g.seen + [t]))
    else AcceptCard(s, d, t)
  }

  function AcceptCard(s: Sup, d: nat, t: int): (s': Sup)
    requires Fits(s) && Dynamic(s, d)
    ensures Fits(s') && SameConfig(s, s') && SameEnv(s, s')
  {
    var g := s.mngs[d];
    var s1 := SetMng(s, d, g.(card := t, cardNew := ETINDEV_NULL, cnt := 0, seen := g.seen + [t]));
    AddIn2Start(OnOffLine(s1, d, t).0, d)
  }

  // sHandleCardChange, and one slot's part of sCheckDevChange
  function HandleCardChange(s: Sup, slot: int, t: int): (s': Sup)
    requires Fits(s)
    ensures Fits(s') && SameConfig(s, s') && SameEnv(s, s')
  {
    if SlotErr(s.drv, slot) || t < ETINDEV_NULL || |s.drv.types| <= t || slot !in s.care then s
    else HandleNewType(s, slot, t)
  }

  // sCheckDevChange for the first n slots
  function CheckDevChange(s: Sup, types: seq<int>, n: nat): (s': Sup)
    requires Fits(s) && n <= |types|
    ensures Fits(s') && SameConfig(s, s') && SameEnv(s, s')
  {
    if n == 0 then s else HandleCardChange(CheckDevChange(s, types, n - 1), n - 1, types[n - 1])
  }
}
