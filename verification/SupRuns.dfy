// Runs of the supervisor: the events it reacts to, and the invariants over every run.

module SupRuns {
  import opened Wrappers
  import opened Queues
  import opened Registry
  import opened SupModel
  import opened SupInv
  import opened SupSteps
  import opened SupChildren
  import opened SupCards

  datatype Event =
    | HelloTick
    | HelloAck(pid: int)
    | SpvTick
    | TermTick
    | KillTick
    | SigChld(order: seq<int>)            // the zombies, in the order waitpid hands them out
    | StartTick(fork: int)                // what fork would return
    | CardReport(slot: int, card: int)    // from the driver
    | CardPoll(cards: seq<int>)           // all slots, by timer
    | Dies(pid: int)                      // a child dies, for whatever reason
    | DriverEvent(ev: DrvEvent)     // driver modules come and go, interrupts are set up, ...

  // What the environment is trusted with. Fork returns a pid no unreaped child has; waitpid(-1)
  // returns every zombie once; on and off line ioctls come from the supervisor alone.
  ghost predicate Possible(s: Sup, e: Event) {
    match e
    case SigChld(order) => Distinct(order) && forall p :: p in order <==> p in s.zombies
    case StartTick(fork) => fork != 0 && (fork > 0 ==> fork !in Children(s))
    case Dies(pid) => pid in s.alive
    case DriverEvent(ev) => !ev.OnlineEv? && !ev.OfflineEv? && DrvSafe(s.drv, ev)
    case _ => true
  }

  function Step(s: Sup, e: Event): (s': Sup)
    requires Fits(s) && Possible(s, e)
    ensures Fits(s') && SameConfig(s, s')
  {
    match e
    case HelloTick => Hello4Live(s)
    case HelloAck(pid) => UpdateLiveState(s, pid)
    case SpvTick => CheckLiveState(s)
    case TermTick => CheckTermTimeout(s)
    case KillTick => CheckKillTimeout(s)
    case SigChld(order) => BuryAll(s, order)
    case StartTick(fork) => CheckNeedStart(s, fork)
    case CardReport(slot, card) => HandleCardChange(s, slot, card)
    case CardPoll(cards) => CheckDevChange(s, cards, |cards|)
    case Dies(pid) => s.(alive := s.alive - {pid}, zombies := s.zombies + {pid})
    case DriverEvent(ev) => s.(drv := DrvStep(s.drv, ev))
  }

  // Driver events other than plug-ins and plug-outs leave the cards in their slots.
  lemma DriverKeepsCards(g: Reg, ev: DrvEvent)
    requires Shape(g) && DrvSafe(g, ev) && !ev.OnlineEv? && !ev.OfflineEv?
    ensures forall i :: 0 <= i < |g.slots| ==> DrvStep(g, ev).slots[i].card == g.slots[i].card
  {
  }

  lemma DriverEventKeeps(s: Sup, e: Event)
    requires Inv(s) && e.DriverEvent? && Possible(s, e)
    ensures Inv(Step(s, e)) && (Agrees(s) ==> Agrees(Step(s, e)))
  {
    var s' := Step(s, e);
    DriverKeepsCards(s.drv, e.ev);
    SameRecs(s, s');
    forall m | 0 <= m < |s.mngs| ensures SameFor(s, s', m) {}
    Frame(s, s', |s.mngs|);
  }

  // Every event keeps every record, manager, timer and child in order, unless it makes the program fault.
  // If the managers agree with the driver it does not, and if moreover online callbacks succeed they still
  // agree afterwards.
  lemma StepKeeps(s: Sup, e: Event)
    requires Inv(s) && Possible(s, e)
    ensures Inv(Step(s, e)) <==> !Step(s, e).faulted
    ensures Agrees(s) && CallbacksOk(s) ==> Agrees(Step(s, e)) && !Step(s, e).faulted
  {
    match e
    case CardReport(slot, card) => CardChangeKeeps(s, slot, card);
    case CardPoll(cards) => CheckDevChangeKeeps(s, cards, |cards|);
    case DriverEvent(ev) => DriverEventKeeps(s, e);
    case Dies(pid) => ReapedCore(s, Step(s, e));
    case SigChld(order) => BuryAllKeeps(s, order);
    case StartTick(fork) => StartKeeps(s, fork);
    case KillTick => KillTimeoutKeeps(s);
    case _ => TickKeeps(s, e);
  }

  // Events about records only.
  lemma TickKeeps(s: Sup, e: Event)
    requires Inv(s) && (e.HelloTick? || e.HelloAck? || e.SpvTick? || e.TermTick?)
    ensures Inv(Step(s, e)) && (Agrees(s) ==> Agrees(Step(s, e)))
  {
    match e
    case HelloTick => HelloKeeps(s);
    case HelloAck(pid) => AckKeeps(s, pid);
    case SpvTick => CheckLiveStateKeeps(s); SpvEnv(s, s.lists[NORMAL]);
    case TermTick => TermTimeoutKeeps(s);
  }

  lemma {:induction false} SpvEnv(s: Sup, q: seq<nat>)
    requires Fits(s) && Below(q, |s.recs|)
    ensures SameEnv(s, SuperviseAll(s, q)) && SuperviseAll(s, q).faulted == s.faulted
    ensures SuperviseAll(s, q).mngs == s.mngs && SuperviseAll(s, q).queue == s.queue
  {
    if q != [] { SpvEnv(s, Front(q)); }
  }

  // ---------- runs ----------

  // The states st a run passes through under the events es; it goes on from no faulted state, so only
  // the last one can be faulted.
  ghost predicate Behavior(st: seq<Sup>, es: seq<Event>) {
    && |st| == |es| + 1
    && (forall k {:trigger Fits(st[k])} :: 0 <= k < |st| ==> Fits(st[k]))
    && (forall k {:trigger StepAt(st, es, k)} :: 0 <= k < |es| ==> StepAt(st, es, k))
  }

  ghost predicate StepAt(st: seq<Sup>, es: seq<Event>, k: nat)
    requires k < |es| && k + 1 < |st|
  {
    Fits(st[k]) && !st[k].faulted && Possible(st[k], es[k]) && st[k + 1] == Step(st[k], es[k])
  }

  lemma BehaviorStep(st: seq<Sup>, es: seq<Event>, k: nat)
    requires Behavior(st, es) && k < |es|
    ensures Fits(st[k]) && !st[k].faulted && Possible(st[k], es[k]) && st[k + 1] == Step(st[k], es[k])
  {
    assert StepAt(st, es, k);
  }

  // On every run the invariant holds of every state up to the first fault.
  lemma {:induction false} RunKeeps(st: seq<Sup>, es: seq<Event>, k: nat)
    requires Behavior(st, es) && Inv(st[0]) && k < |st|
    ensures SameConfig(st[0], st[k]) && (Inv(st[k]) <==> !st[k].faulted) && (k < |es| ==> Inv(st[k]))
  {
    if k > 0 {
      RunKeeps(st, es, k - 1);
      RunStepKeeps(st, es, k - 1);
    }
    if k < |es| { assert StepAt(st, es, k); }
  }

  lemma RunStepKeeps(st: seq<Sup>, es: seq<Event>, k: nat)
    requires Behavior(st, es) && k < |es| && Inv(st[k])
    ensures SameConfig(st[k], st[k + 1]) && (Inv(st[k + 1]) <==> !st[k + 1].faulted)
    ensures Agrees(st[k]) && CallbacksOk(st[k]) ==> Agrees(st[k + 1]) && !st[k + 1].faulted
  {
    BehaviorStep(st, es, k);
    StepKeeps(st[k], es[k]);
  }

  // A run that does not end in a fault has none.
  lemma NoFaultBefore(st: seq<Sup>, es: seq<Event>, k: nat)
    requires Behavior(st, es) && !st[|es|].faulted && k < |st|
    ensures !st[k].faulted
  {
    if k < |es| { assert StepAt(st, es, k); }
  }

  // Over every run on which the drivers' online callbacks succeed: there is no fault; a slot is on line
  // in the driver exactly when its manager is queued or has a process; the ioctls of each slot alternate,
  // on line first; and none finds the slot already in the state it asks for.
  lemma {:induction false} RunAgrees(st: seq<Sup>, es: seq<Event>, k: nat)
    requires Behavior(st, es) && Inv(st[0]) && Agrees(st[0]) && k < |st|
    requires forall j :: 0 <= j < k ==> CallbacksOk(st[j])
    ensures Inv(st[k]) && Agrees(st[k]) && SameConfig(st[0], st[k])
    ensures forall d :: 0 <= d < |st[k].drv.slots| && d in st[k].care ==>
              && (st[k].drv.slots[d].card != ETINDEV_NULL <==> d in st[k].queue || st[k].mngs[d].child.Some?)
              && Alternate(st[k].mngs[d].io)
  {
    if k > 0 {
      RunAgrees(st, es, k - 1);
      RunStepKeeps(st, es, k - 1);
    }
    forall d | 0 <= d < |st[k].drv.slots| && d in st[k].care
      ensures st[k].drv.slots[d].card != ETINDEV_NULL <==> d in st[k].queue || st[k].mngs[d].child.Some?
      ensures Alternate(st[k].mngs[d].io)
    {
      assert MngBasic(st[k], d) && MngDriver(st[k], d);
    }
  }

  // ---------- the start ----------

  // After the sStart functions: all records pooled, all static managers queued, no card anywhere.
  function Init(nSlots: nat, nStatic: nat, drv: Reg, needKill: bool, care: set<int>, self: int): (s: Sup)
    requires Shape(drv) && |drv.slots| == nSlots
    ensures Fits(s)
  {
    Sup(seq(nSlots + nStatic, _ => FREE_REC), seq(nSlots + nStatic, _ => FRESH_MNG),
        [seq(nSlots + nStatic, i => i), [], [], []], seq(nStatic, i requires 0 <= i < nStatic => nSlots + i),
        nStatic > 0, false, false, false, false, {}, {}, drv, needKill, care, self)
  }

  lemma InitOk(nSlots: nat, nStatic: nat, drv: Reg, needKill: bool, care: set<int>, self: int)
    requires Shape(drv) && |drv.slots| == nSlots && self !in care
    requires forall i :: 0 <= i < nSlots && i in care ==> drv.slots[i].card == ETINDEV_NULL
    ensures var s := Init(nSlots, nStatic, drv, needKill, care, self);
            && Inv(s) && Agrees(s)
            && |s.recs| == |s.mngs| == |s.lists[POOL]| == nSlots + nStatic && |s.queue| == nStatic
            && (forall i :: 0 <= i < |s.recs| ==> s.lists[POOL][i] == i && s.mngs[i].child.None?)
            && (forall k :: 0 <= k < nStatic ==> s.queue[k] == nSlots + k)
  {
    var s := Init(nSlots, nStatic, drv, needKill, care, self);
    forall i | 0 <= i < |s.recs| ensures RecOk(s, i) { assert s.lists[POOL][i] == i; }
    forall m | 0 <= m < |s.mngs| ensures LinkOk(s, m) && MngBasic(s, m) && MngDriver(s, m) {
      assert m >= nSlots ==> s.queue[m - nSlots] == m;
      assert RunLen([]) == 0;
    }
    assert NoDup(s.lists[POOL]);
    forall k, l | 0 <= k < 4 && 0 <= l < 4 && k != l ensures Apart(s.lists[k], s.lists[l]) {}
    assert Pids(s.recs) == {};
  }
}
