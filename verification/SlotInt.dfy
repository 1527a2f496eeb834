// The interrupt hand-off of one slot in pdm/driver/src/pdm_drv_ext.c as interleaved atomic steps: the
// interrupt masks the slot and schedules one of two work items; the handler runs under the slot mutex
// and may unmask; the application enables and disables meanwhile.

module SlotInt {

  // How far the handler of one work item has got. From Deciding on it holds the slot mutex.
  datatype Phase =
    | Idle
    | Started    // taken off the work queue, wants the mutex
    | Deciding   // found the slot enabled and an isr set; about to call it
    | Unmasking  // the isr returned more than 0; about to unmask
    | Leaving    // nothing left but to give the mutex back

  // pdm_enable_int and pdm_disable_int each set a flag, then write the mask register.
  datatype App = Quiet | Enabling | Disabling

  datatype IntState = IntState(
    enabled: bool,         // BIT_INT_ENABLED
    masked: bool,          // the mask register
    idx: nat,              // BIT_WORK_IDX: the work item for the next interrupt
    isr: bool,             // an isr is registered
    pending: seq<bool>,    // per work item: on the work queue
    phase: seq<Phase>,     // per work item: its handler
    app: App,
    taken: nat,            // interrupts taken
    done: nat,             // handlers past their last decision
    calls: nat,            // isr calls begun
    lost: nat)             // schedule_work on an item that was pending already

  datatype Step =
    | Irq
    | Dequeue(j: nat)
    | Lock(j: nat)
    | CallIsr(j: nat, positive: bool)
    | Unmask(j: nat)
    | Unlock(j: nat)
    | EnableBit | EnableReg
    | DisableBit | DisableReg
    | SetIsr(on: bool)

  predicate WellFormed(s: IntState) { |s.pending| == 2 && |s.phase| == 2 && s.idx < 2 }

  predicate HoldsMutex(p: Phase) { p.Deciding? || p.Unmasking? || p.Leaving? }

  predicate MutexFree(s: IntState)
    requires WellFormed(s)
  {
    !HoldsMutex(s.phase[0]) && !HoldsMutex(s.phase[1])
  }

  predicate CanStep(s: IntState, e: Step)
    requires WellFormed(s)
  {
    match e
    case Irq => !s.masked
    case Dequeue(j) => j < 2 && s.pending[j] && s.phase[j].Idle?
    case Lock(j) => j < 2 && s.phase[j].Started? && MutexFree(s)
    case CallIsr(j, _) => j < 2 && s.phase[j].Deciding?
    case Unmask(j) => j < 2 && s.phase[j].Unmasking?
    case Unlock(j) => j < 2 && s.phase[j].Leaving?
    case EnableBit => s.app.Quiet?
    case EnableReg => s.app.Enabling?
    case DisableBit => s.app.Quiet?
    case DisableReg => s.app.Disabling?
    case SetIsr(_) => MutexFree(s)
  }

  // One slot's part of pdm_handle_slot_int
  function Take(s: IntState): (s': IntState)
    requires WellFormed(s)
    ensures WellFormed(s')
  {
    s.(masked := true, idx := 1 - s.idx, taken := s.taken + 1,
       lost := if s.pending[s.idx] then s.lost + 1 else s.lost,
       pending := s.pending[s.idx := true])
  }

  function Next(s: IntState, e: Step): (s': IntState)
    requires WellFormed(s) && CanStep(s, e)
    ensures WellFormed(s')
  {
    match e
    case Irq => Take(s)
    case Dequeue(j) => s.(pending := s.pending[j := false], phase := s.phase[j := Started])
    case Lock(j) =>
      if s.enabled && s.isr then s.(phase := s.phase[j := Deciding])
      else s.(phase := s.phase[j := Leaving], done := s.done + 1)
    case CallIsr(j, positive) =>
      if positive then s.(phase := s.phase[j := Unmasking], calls := s.calls + 1)
      else s.(phase := s.phase[j := Leaving], calls := s.calls + 1, done := s.done + 1)
    case Unmask(j) => s.(masked := false, phase := s.phase[j := Leaving], done := s.done + 1)
    case Unlock(j) => s.(phase := s.phase[j := Idle])
    case EnableBit => s.(enabled := true, app := Enabling)
    case EnableReg => s.(masked := false, app := Quiet)
    case DisableBit => s.(enabled := false, app := Disabling)
    case DisableReg => s.(masked := true, app := Quiet)
    case SetIsr(on) => s.(isr := on)
  }

  // pdm_init_all_slot_info; the mask register is as the hardware left it.
  function Init(masked: bool): IntState {
    IntState(false, masked, 0, false, [false, false], [Idle, Idle], Quiet, 0, 0, 0, 0)
  }

  // ---------- the invariant ----------

  function Owed(s: IntState, j: nat): nat
    requires WellFormed(s) && j < 2
  {
    (if s.pending[j] then 1 else 0) + (if s.phase[j] in {Started, Deciding, Unmasking} then 1 else 0)
  }

  // Work scheduled and not yet past its last decision.
  function Outstanding(s: IntState): nat
    requires WellFormed(s)
  {
    Owed(s, 0) + Owed(s, 1)
  }

  predicate Ok(s: IntState) {
    && WellFormed(s)
    && !(HoldsMutex(s.phase[0]) && HoldsMutex(s.phase[1]))
    && (if s.masked then 0 else 1) + Outstanding(s) <= 1
    && s.taken == s.done + Outstanding(s) && s.lost == 0
    // the item whose turn is next may still hold the mutex only while the other item waits for it
    && (!s.phase[s.idx].Idle? ==> s.phase[s.idx].Leaving? && (s.pending[1 - s.idx] || s.phase[1 - s.idx].Started?))
    && !s.pending[s.idx]
  }

  // The application unmasks only when no work is outstanding.
  predicate Disciplined(s: IntState, e: Step)
    requires WellFormed(s)
  {
    e.EnableReg? ==> Outstanding(s) == 0
  }

  lemma InitOk(masked: bool)
    ensures Ok(Init(masked))
  {
  }

  lemma IrqOk(s: IntState)
    requires Ok(s) && CanStep(s, Irq)
    ensures Ok(Next(s, Irq))
  {
    assert s.idx == 0 || s.idx == 1;
  }

  lemma DequeueOk(s: IntState, j: nat)
    requires Ok(s) && CanStep(s, Dequeue(j))
    ensures Ok(Next(s, Dequeue(j)))
  {
    assert s.idx == 0 || s.idx == 1;
    assert j == 0 || j == 1;
  }

  lemma LockOk(s: IntState, j: nat)
    requires Ok(s) && CanStep(s, Lock(j))
    ensures Ok(Next(s, Lock(j)))
  {
    assert s.idx == 0 || s.idx == 1;
    assert j == 0 || j == 1;
  }

  lemma CallIsrOk(s: IntState, j: nat, positive: bool)
    requires Ok(s) && CanStep(s, CallIsr(j, positive))
    ensures Ok(Next(s, CallIsr(j, positive)))
  {
    assert s.idx == 0 || s.idx == 1;
    assert j == 0 || j == 1;
  }

  lemma UnmaskOk(s: IntState, j: nat)
    requires Ok(s) && CanStep(s, Unmask(j))
    ensures Ok(Next(s, Unmask(j)))
  {
    assert s.idx == 0 || s.idx == 1;
    assert j == 0 || j == 1;
  }

  lemma UnlockOk(s: IntState, j: nat)
    requires Ok(s) && CanStep(s, Unlock(j))
    ensures Ok(Next(s, Unlock(j)))
  {
    assert s.idx == 0 || s.idx == 1;
    assert j == 0 || j == 1;
  }

  lemma StepOk(s: IntState, e: Step)
    requires Ok(s) && CanStep(s, e) && Disciplined(s, e)
    ensures Ok(Next(s, e))
  {
    match e
    case Irq => IrqOk(s);
    case Dequeue(j) => DequeueOk(s, j);
    case Lock(j) => LockOk(s, j);
    case CallIsr(j, positive) => CallIsrOk(s, j, positive);
    case Unmask(j) => UnmaskOk(s, j);
    case Unlock(j) => UnlockOk(s, j);
    case EnableReg => EnableOkIff(s);
    case _ =>
  }

  // The interrupt always finds its work item completely idle: neither queued nor running.
  lemma IrqFindsIdleItem(s: IntState)
    requires Ok(s) && CanStep(s, Irq)
    ensures !s.pending[s.idx] && s.phase[s.idx].Idle? && Next(s, Irq).lost == s.lost
  {
    assert s.idx == 0 || s.idx == 1;
  }

  // Unmasking while work is outstanding breaks the discipline, and only that does.
  lemma EnableOkIff(s: IntState)
    requires Ok(s) && CanStep(s, EnableReg)
    ensures Ok(Next(s, EnableReg)) <==> Outstanding(s) == 0
  {
    assert s.idx == 0 || s.idx == 1;
  }

  // ---------- runs ----------

  ghost predicate Behavior(st: seq<IntState>, es: seq<Step>) {
    && |st| == |es| + 1
    && forall k {:trigger Follows(st, es, k)} :: 0 <= k < |es| ==> Follows(st, es, k)
  }

  ghost predicate Follows(st: seq<IntState>, es: seq<Step>, k: nat)
    requires k < |es| && k + 1 < |st|
  {
    WellFormed(st[k]) && CanStep(st[k], es[k]) && st[k + 1] == Next(st[k], es[k])
  }

  // Over every disciplined interleaving: at most one of unmasked and outstanding, nothing lost,
  // interrupts taken are handlers done and outstanding.
  lemma {:induction false} RunOk(st: seq<IntState>, es: seq<Step>, k: nat)
    requires Behavior(st, es) && Ok(st[0]) && k < |st|
    requires forall n {:trigger es[n]} :: 0 <= n < k && WellFormed(st[n]) ==> Disciplined(st[n], es[n])
    ensures Ok(st[k])
  {
    if k > 0 {
      RunOk(st, es, k - 1);
      assert Follows(st, es, k - 1);
      StepOk(st[k - 1], es[k - 1]);
    }
  }

  // An undisciplined application can lose an interrupt: it enables twice with the work still queued,
  // and the third interrupt finds its item pending.
  lemma LostInterruptWitness() returns (st: seq<IntState>, es: seq<Step>)
    ensures Behavior(st, es) && Ok(st[0]) && st[|es|].lost == 1
  {
    st, es := [Init(false)], [];
    st, es := Extend(st, es, Init(false), Irq, Pending(false, true, 1, [true, false], Quiet, 1, 0));
    st, es := Reopen(st, es, false, 1, [true, false], 1);
    st, es := Extend(st, es, Pending(true, false, 1, [true, false], Quiet, 1, 0), Irq,
                     Pending(true, true, 0, [true, true], Quiet, 2, 0));
    st, es := Reopen(st, es, true, 0, [true, true], 2);
    st, es := Extend(st, es, Pending(true, false, 0, [true, true], Quiet, 2, 0), Irq,
                     Pending(true, true, 1, [true, true], Quiet, 3, 1));
  }

  // A state in which no handler has run yet.
  function Pending(enabled: bool, masked: bool, idx: nat, pending: seq<bool>, app: App, taken: nat,
                  lost: nat): IntState {
    IntState(enabled, masked, idx, false, pending, [Idle, Idle], app, taken, 0, 0, lost)
  }

  // The application enables, whatever is outstanding.
  lemma Reopen(st: seq<IntState>, es: seq<Step>, enabled: bool, idx: nat, pending: seq<bool>, taken: nat)
    returns (st': seq<IntState>, es': seq<Step>)
    requires Behavior(st, es) && st[|es|] == Pending(enabled, true, idx, pending, Quiet, taken, 0)
    requires WellFormed(st[|es|])
    ensures Behavior(st', es') && st'[0] == st[0] && st'[|es'|] == Pending(true, false, idx, pending, Quiet, taken, 0)
  {
    st', es' := Extend(st, es, st[|es|], EnableBit, Pending(true, true, idx, pending, Enabling, taken, 0));
    st', es' := Extend(st', es', st'[|es'|], EnableReg, Pending(true, false, idx, pending, Quiet, taken, 0));
  }

  // One more step of a run that has reached s.
  lemma Extend(st: seq<IntState>, es: seq<Step>, s: IntState, e: Step, s': IntState)
    returns (st': seq<IntState>, es': seq<Step>)
    requires Behavior(st, es) && st[|es|] == s && WellFormed(s) && CanStep(s, e) && s' == Next(s, e)
    ensures Behavior(st', es') && st'[0] == st[0] && st'[|es'|] == s'
  {
    st', es' := st + [s'], es + [e];
    forall k | 0 <= k < |es'| ensures Follows(st', es', k) {
      if k < |es| { assert Follows(st, es, k); }
    }
  }

  // ---------- after pdm_disable_int ----------

  predicate OneHolder(s: IntState)
    requires WellFormed(s)
  {
    !(HoldsMutex(s.phase[0]) && HoldsMutex(s.phase[1]))
  }

  // Handlers that will still call the isr, and interrupts that can still be taken.
  function CallsToCome(s: IntState): nat
    requires WellFormed(s)
  {
    (if s.phase[0].Deciding? then 1 else 0) + (if s.phase[1].Deciding? then 1 else 0)
  }

  function IrqsToCome(s: IntState): nat
    requires WellFormed(s)
  {
    CallsToCome(s) + (if s.phase[0].Unmasking? then 1 else 0) + (if s.phase[1].Unmasking? then 1 else 0)
    + (if s.masked then 0 else 1)
  }

  // While nobody enables, neither budget grows.
  lemma DisabledStep(s: IntState, e: Step)
    requires WellFormed(s) && CanStep(s, e) && OneHolder(s) && !s.enabled && !s.app.Enabling? && !e.EnableBit?
    ensures var s' := Next(s, e);
            && OneHolder(s') && !s'.enabled && !s'.app.Enabling?
            && s'.calls + CallsToCome(s') <= s.calls + CallsToCome(s)
            && s'.taken + IrqsToCome(s') <= s.taken + IrqsToCome(s)
  {
    match e
    case Dequeue(j) => assert j == 0 || j == 1;
    case Lock(j) => assert j == 0 || j == 1;
    case CallIsr(j, positive) => assert j == 0 || j == 1;
    case Unmask(j) => assert j == 0 || j == 1;
    case Unlock(j) => assert j == 0 || j == 1;
    case _ =>
  }

  lemma {:induction false} DisabledRun(st: seq<IntState>, es: seq<Step>, j: nat, k: nat)
    requires Behavior(st, es) && j <= k < |st| && WellFormed(st[j])
    requires OneHolder(st[j]) && !st[j].enabled && !st[j].app.Enabling?
    requires forall n :: j <= n < k ==> !es[n].EnableBit?
    ensures WellFormed(st[k]) && OneHolder(st[k]) && !st[k].enabled && !st[k].app.Enabling?
    ensures st[k].calls + CallsToCome(st[k]) <= st[j].calls + CallsToCome(st[j])
    ensures st[k].taken + IrqsToCome(st[k]) <= st[j].taken + IrqsToCome(st[j])
  {
    if j < k {
      DisabledRun(st, es, j, k - 1);
      assert Follows(st, es, k - 1);
      DisabledStep(st[k - 1], es[k - 1]);
    }
  }

  // What holds of every state of every run, disciplined or not.
  predicate Sane(s: IntState) { WellFormed(s) && OneHolder(s) && (s.app.Disabling? ==> !s.enabled) }

  lemma SaneStep(s: IntState, e: Step)
    requires Sane(s) && CanStep(s, e)
    ensures Sane(Next(s, e))
  {
    HolderStep(s, e);
  }

  lemma HolderStep(s: IntState, e: Step)
    requires WellFormed(s) && OneHolder(s) && CanStep(s, e)
    ensures OneHolder(Next(s, e))
  {
    match e
    case Dequeue(j) => assert j == 0 || j == 1;
    case Lock(j) => assert j == 0 || j == 1;
    case CallIsr(j, positive) => assert j == 0 || j == 1;
    case Unmask(j) => assert j == 0 || j == 1;
    case Unlock(j) => assert j == 0 || j == 1;
    case _ =>
  }

  lemma {:induction false} SaneRun(st: seq<IntState>, es: seq<Step>, k: nat)
    requires Behavior(st, es) && Sane(st[0]) && k < |st|
    ensures Sane(st[k])
  {
    if k > 0 {
      SaneRun(st, es, k - 1);
      assert Follows(st, es, k - 1);
      SaneStep(st[k - 1], es[k - 1]);
    }
  }

  // On every run: once pdm_disable_int has returned and nobody enables again, at most one more isr call
  // begins and at most one more interrupt is taken, however handlers interleave; after it the slot stays
  // masked.
  lemma AfterDisable(st: seq<IntState>, es: seq<Step>, masked: bool, j: nat, k: nat)
    requires Behavior(st, es) && st[0] == Init(masked) && j < k < |st| && es[j].DisableReg?
    requires forall n :: j < n < k ==> !es[n].EnableBit?
    ensures st[k].calls <= st[j + 1].calls + 1
    ensures st[k].taken <= st[j + 1].taken + 1
    ensures st[k].taken == st[j + 1].taken + 1 ==> st[k].masked
  {
    SaneRun(st, es, j);
    assert Follows(st, es, j);
    DisabledRun(st, es, j + 1, k);
  }

  // ---------- interference ----------

  // The step is not one the handler of item j takes while it holds the mutex.
  predicate Foreign(e: Step, j: nat) { (e.Lock? || e.CallIsr? || e.Unmask? || e.Unlock?) ==> e.j != j }

  // Whatever the others do meanwhile: of the steps env, those that are foreign to j and possible when
  // their turn comes. With strict set, the application unmasks only when no work is outstanding.
  function Weave(s: IntState, j: nat, strict: bool, env: seq<Step>): (s': IntState)
    requires WellFormed(s)
    ensures WellFormed(s')
  {
    if env == [] then s
    else
      var s1, e := Weave(s, j, strict, env[..|env| - 1]), env[|env| - 1];
      if Foreign(e, j) && CanStep(s1, e) && (strict ==> Disciplined(s1, e)) then Next(s1, e) else s1
  }

  // Nobody gets past a handler that holds the mutex.
  predicate HeldAlike(s: IntState, s': IntState, j: nat)
    requires WellFormed(s) && WellFormed(s') && j < 2
  {
    OneHolder(s') && s'.phase[j] == s.phase[j] && s'.done == s.done && s'.calls == s.calls
  }

  // No interrupt, and no write to the mask register by the application.
  predicate LeavesMask(env: seq<Step>) {
    forall n :: 0 <= n < |env| ==> !env[n].Irq? && !env[n].EnableReg? && !env[n].DisableReg?
  }

  lemma HeldStep(s: IntState, j: nat, e: Step)
    requires WellFormed(s) && OneHolder(s) && j < 2 && HoldsMutex(s.phase[j]) && Foreign(e, j) && CanStep(s, e)
    ensures HeldAlike(s, Next(s, e), j)
    ensures LeavesMask([e]) ==> Next(s, e).masked == s.masked
  {
    assert LeavesMask([e]) ==> !([e][0]).Irq? && !([e][0]).EnableReg? && !([e][0]).DisableReg?;
    match e
    case Dequeue(i) => assert i == 1 - j;
    case _ =>
  }

  lemma {:induction false} WeaveHeld(s: IntState, j: nat, strict: bool, env: seq<Step>)
    requires WellFormed(s) && OneHolder(s) && j < 2 && HoldsMutex(s.phase[j])
    ensures HeldAlike(s, Weave(s, j, strict, env), j)
    ensures LeavesMask(env) ==> Weave(s, j, strict, env).masked == s.masked
  {
    if env != [] {
      var s1, e := Weave(s, j, strict, env[..|env| - 1]), env[|env| - 1];
      WeaveHeld(s, j, strict, env[..|env| - 1]);
      assert LeavesMask(env) ==> LeavesMask(env[..|env| - 1]) && LeavesMask([e]);
      if Foreign(e, j) && CanStep(s1, e) { HeldStep(s1, j, e); }
    }
  }

  lemma {:induction false} WeaveOk(s: IntState, j: nat, env: seq<Step>)
    requires Ok(s)
    ensures Ok(Weave(s, j, true, env))
  {
    if env != [] {
      var s1, e := Weave(s, j, true, env[..|env| - 1]), env[|env| - 1];
      WeaveOk(s, j, env[..|env| - 1]);
      if CanStep(s1, e) && Disciplined(s1, e) { StepOk(s1, e); }
    }
  }

  // Between the two steps of pdm_enable_int or pdm_disable_int nobody else touches the flag, and once
  // it is cleared neither budget grows.
  predicate AppAlike(s: IntState, s': IntState)
    requires WellFormed(s) && WellFormed(s')
  {
    && OneHolder(s') && s'.app == s.app && s'.enabled == s.enabled
    && (!s.enabled ==>
          && s'.calls + CallsToCome(s') <= s.calls + CallsToCome(s)
          && s'.taken + IrqsToCome(s') <= s.taken + IrqsToCome(s))
  }

  lemma AppStep(s: IntState, e: Step)
    requires WellFormed(s) && OneHolder(s) && CanStep(s, e) && (if s.enabled then s.app.Enabling? else s.app.Disabling?)
    requires !e.EnableReg? && !e.DisableReg?
    ensures AppAlike(s, Next(s, e))
  {
    if s.enabled {
      match e
      case Dequeue(j) => assert j == 0 || j == 1;
      case Lock(j) => assert j == 0 || j == 1;
      case CallIsr(j, positive) => assert j == 0 || j == 1;
      case Unmask(j) => assert j == 0 || j == 1;
      case Unlock(j) => assert j == 0 || j == 1;
      case _ =>
    } else {
      DisabledStep(s, e);
    }
  }

  // The application does nothing else in the middle of a call.
  predicate NoApp(env: seq<Step>) { forall n :: 0 <= n < |env| ==> !env[n].EnableReg? && !env[n].DisableReg? }

  lemma {:induction false} WeaveApp(s: IntState, strict: bool, env: seq<Step>)
    requires WellFormed(s) && OneHolder(s) && (if s.enabled then s.app.Enabling? else s.app.Disabling?) && NoApp(env)
    ensures AppAlike(s, Weave(s, 2, strict, env))
  {
    if env != [] {
      var s1, e := Weave(s, 2, strict, env[..|env| - 1]), env[|env| - 1];
      assert NoApp(env[..|env| - 1]);
      WeaveApp(s, strict, env[..|env| - 1]);
      if Foreign(e, 2) && CanStep(s1, e) { AppStep(s1, e); }
    }
  }

  // ---------- the driver's functions ----------

  // The last five fields are bookkeeping; no function of the driver reads them.
  class SlotInfo {
    var enabled: bool
    var masked: bool
    var idx: nat
    var isr: bool
    var pending: seq<bool>
    var phase: seq<Phase>
    var app: App
    var taken: nat
    var done: nat
    var calls: nat
    var lost: nat

    function View(): IntState
      reads this
    {
      IntState(enabled, masked, idx, isr, pending, phase, app, taken, done, calls, lost)
    }

    constructor (masked: bool)
      ensures View() == Init(masked)
    {
      enabled, this.masked, idx, isr := false, masked, 0, false;
      pending, phase := [false, false], [Idle, Idle];
      app, taken, done, calls, lost := Quiet, 0, 0, 0, 0;
    }

    // The others take their steps.
    method Interfere(j: nat, strict: bool, env: seq<Step>)
      requires WellFormed(View())
      modifies this
      ensures View() == Weave(old(View()), j, strict, env)
    {
      var s := Weave(View(), j, strict, env);
      enabled, masked, idx, isr, pending, phase := s.enabled, s.masked, s.idx, s.isr, s.pending, s.phase;
      app, taken, done, calls, lost := s.app, s.taken, s.done, s.calls, s.lost;
    }

    // pdm_enable_int. The flag is set on return, and the hand-off is in order exactly if no work is
    // outstanding by then.
    method EnableInt(strict: bool, env: seq<Step>)
      requires WellFormed(View()) && OneHolder(View()) && app.Quiet? && NoApp(env)
      modifies this
      ensures WellFormed(View()) && OneHolder(View()) && app.Quiet? && enabled && !masked
      ensures strict && Ok(old(View())) ==> (Ok(View()) <==> Outstanding(View()) == 0)
    {
      ghost var s := View();
      enabled, app := true, Enabling;
      Wait(strict, env);
      ghost var s1 := View();
      masked, app := false, Quiet;  // pdm_enable_int_reg
      if strict && Ok(s) { EnabledOkIff(s, env, s1, View()); }
    }

    // The others take their steps in the middle of a call of the application.
    method Wait(strict: bool, env: seq<Step>)
      requires WellFormed(View()) && OneHolder(View()) && NoApp(env)
      requires if enabled then app.Enabling? else app.Disabling?
      modifies this
      ensures WellFormed(View()) && View() == Weave(old(View()), 2, strict, env) && AppAlike(old(View()), View())
    {
      WeaveApp(View(), strict, env);
      Interfere(2, strict, env);
    }

    // pdm_disable_int. On return the slot is disabled and masked; whatever came in between, at most one
    // isr call and at most one interrupt are still to come.
    method DisableInt(strict: bool, env: seq<Step>)
      requires WellFormed(View()) && OneHolder(View()) && app.Quiet? && NoApp(env)
      modifies this
      ensures WellFormed(View()) && OneHolder(View()) && app.Quiet? && !enabled && masked
      ensures CallsToCome(View()) <= 1 && IrqsToCome(View()) <= 1
      ensures calls + CallsToCome(View()) <= old(calls) + CallsToCome(old(View()))
      ensures taken + IrqsToCome(View()) <= old(taken) + IrqsToCome(old(View()))
    {
      enabled, app := false, Disabling;
      Wait(strict, env);
      masked, app := true, Quiet;  // pdm_disable_int_reg
    }

    // One slot's part of pdm_handle_slot_int
    method HandleInt()
      requires WellFormed(View())
      modifies this
      ensures View() == Take(old(View()))
    {
      masked := true;                       // pdm_disable_int_reg
      var workIdx := idx;                   // test_and_change_bit
      idx := 1 - idx;
      if pending[workIdx] { lost := lost + 1; }
      pending := pending[workIdx := true];  // schedule_work
      taken := taken + 1;
    }

    // The handler of item j has the mutex and got as far as p.
    ghost predicate HandlerAt(j: nat, p: Phase, ok: bool, d: nat, c: nat)
      reads this
    {
      && WellFormed(View()) && OneHolder(View()) && j < 2 && phase[j] == p && HoldsMutex(p)
      && done == d && calls == c && (ok ==> Ok(View()))
    }

    // slot_int_handler of item j, once mutex_lock has returned; ret is what the isr returns. Whatever
    // the others do meanwhile, they finish no handler and begin no isr call: the run accounts for one
    // finished handler, and one isr call if the slot was enabled and had an isr when it got the mutex. The
    // handler unmasks the slot exactly if it called the isr and that returned a positive value.
    method SlotIntHandler(j: nat, ret: int, strict: bool, envs: seq<seq<Step>>)
      requires WellFormed(View()) && OneHolder(View()) && CanStep(View(), Lock(j)) && |envs| == 3
      modifies this
      ensures WellFormed(View()) && OneHolder(View()) && phase[j].Idle?
      ensures done == old(done) + 1
      ensures calls == old(calls) + if old(enabled) && old(isr) then 1 else 0
      ensures old(enabled) && old(isr) && ret > 0 && LeavesMask(envs[2]) ==> !masked
      ensures !(old(enabled) && old(isr) && ret > 0) && (forall n :: 0 <= n < 3 ==> LeavesMask(envs[n])) ==>
                masked == old(masked)
      ensures strict && Ok(old(View())) ==> Ok(View())
    {
      ghost var ok := strict && Ok(View());
      var call := Decide(j, ok);
      if call {
        Meanwhile(j, strict, envs[0], Deciding, ok);
        var positive := CallIsr(j, ret, ok);
        if positive {
          Meanwhile(j, strict, envs[1], Unmasking, ok);
          Unmask(j, ok);
        }
      }
      Meanwhile(j, strict, envs[2], Leaving, ok);
      Unlock(j, ok);
    }

    // The handler's decision
    method Decide(j: nat, ghost ok: bool) returns (call: bool)
      requires WellFormed(View()) && OneHolder(View()) && CanStep(View(), Lock(j)) && (ok ==> Ok(View()))
      modifies this
      ensures call <==> old(enabled) && old(isr)
      ensures if call then HandlerAt(j, Deciding, ok, old(done), old(calls))
              else HandlerAt(j, Leaving, ok, old(done) + 1, old(calls))
      ensures masked == old(masked)
    {
      ghost var s := View();
      HolderStep(s, Lock(j));
      if ok { LockOk(s, j); }
      call := enabled && isr;
      phase := phase[j := if call then Deciding else Leaving];
      if !call { done := done + 1; }
      assert View() == Next(s, Step.Lock(j));
    }

    method CallIsr(j: nat, ret: int, ghost ok: bool) returns (positive: bool)
      requires HandlerAt(j, Deciding, ok, done, calls)
      modifies this
      ensures positive <==> ret > 0
      ensures if positive then HandlerAt(j, Unmasking, ok, old(done), old(calls) + 1)
              else HandlerAt(j, Leaving, ok, old(done) + 1, old(calls) + 1)
      ensures masked == old(masked)
    {
      ghost var s := View();
      HolderStep(s, Step.CallIsr(j, ret > 0));
      if ok { CallIsrOk(s, j, ret > 0); }
      calls := calls + 1;
      positive := ret > 0;
      phase := phase[j := if positive then Unmasking else Leaving];
      if !positive { done := done + 1; }
      assert View() == Next(s, Step.CallIsr(j, ret > 0));
    }

    method Unmask(j: nat, ghost ok: bool)
      requires HandlerAt(j, Unmasking, ok, done, calls)
      modifies this
      ensures HandlerAt(j, Leaving, ok, old(done) + 1, old(calls)) && !masked
    {
      ghost var s := View();
      HolderStep(s, Step.Unmask(j));
      if ok { UnmaskOk(s, j); }
      masked := false;  // pdm_enable_int_reg
      phase := phase[j := Leaving];
      done := done + 1;
      assert View() == Next(s, Step.Unmask(j));
    }

    method Unlock(j: nat, ghost ok: bool)
      requires HandlerAt(j, Leaving, ok, done, calls)
      modifies this
      ensures WellFormed(View()) && OneHolder(View()) && phase[j].Idle? && done == old(done) && calls == old(calls)
      ensures masked == old(masked) && (ok ==> Ok(View()))
    {
      ghost var s := View();
      HolderStep(s, Step.Unlock(j));
      if ok { UnlockOk(s, j); }
      phase := phase[j := Idle];
      assert View() == Next(s, Step.Unlock(j));
    }

    // Interference while the handler of item j holds the mutex
    method Meanwhile(j: nat, strict: bool, env: seq<Step>, ghost p: Phase, ghost ok: bool)
      requires HandlerAt(j, p, ok, done, calls) && (ok ==> strict)
      modifies this
      ensures HandlerAt(j, p, ok, old(done), old(calls)) && (LeavesMask(env) ==> masked == old(masked))
    {
      WeaveHeld(View(), j, strict, env);
      if ok { WeaveOk(View(), j, env); }
      Interfere(j, strict, env);
    }
  }

  // Setting the flag and then waiting keeps the hand-off in order; unmasking then keeps it so exactly if
  // no work is outstanding.
  lemma EnabledOkIff(s: IntState, env: seq<Step>, s1: IntState, s': IntState)
    requires Ok(s) && s.app.Quiet? && NoApp(env)
    requires s1 == Weave(s.(enabled := true, app := Enabling), 2, true, env) && s' == s1.(masked := false, app := Quiet)
    ensures WellFormed(s') && (Ok(s') <==> Outstanding(s') == 0)
  {
    StepOk(s, EnableBit);
    WeaveOk(Next(s, EnableBit), 2, env);
    WeaveApp(Next(s, EnableBit), true, env);
    EnableOkIff(Weave(Next(s, EnableBit), 2, true, env));
  }

  ghost predicate DistinctSlots(slots: seq<SlotInfo>) {
    forall i, j :: 0 <= i < j < |slots| ==> slots[i] != slots[j]
  }

  // What pdm_handle_slot_int does to one slot.
  ghost predicate Took(s: IntState, s': IntState, raised: bool) {
    WellFormed(s) && s' == if raised then Take(s) else s
  }

  function Raised(raised: seq<bool>, n: nat): nat
    requires n <= |raised|
  {
    if n == 0 then 0 else Raised(raised, n - 1) + if raised[n - 1] then 1 else 0
  }

  method HandleOne(s: SlotInfo, raised: bool)
    requires WellFormed(s.View())
    modifies s
    ensures Took(old(s.View()), s.View(), raised)
  {
    if raised { s.HandleInt(); }
  }

  // pdm_handle_slot_int: every slot whose interrupt bit is set takes its interrupt, no other changes.
  method HandleSlotInt(slots: seq<SlotInfo>, raised: seq<bool>) returns (ret: nat)
    requires |raised| == |slots| && DistinctSlots(slots)
    requires forall i :: 0 <= i < |slots| ==> WellFormed(slots[i].View())
    modifies slots
    ensures forall i :: 0 <= i < |slots| ==> Took(old(slots[i].View()), slots[i].View(), raised[i])
    ensures ret == Raised(raised, |slots|)
  {
    ret := 0;
    for slot := 0 to |slots|
      invariant forall i :: 0 <= i < slot ==> Took(old(slots[i].View()), slots[i].View(), raised[i])
      invariant forall i :: slot <= i < |slots| ==> slots[i].View() == old(slots[i].View())
      invariant ret == Raised(raised, slot)
    {
      ghost var before := slots[slot].View();
      label Before:
      HandleOne(slots[slot], raised[slot]);
      if raised[slot] { ret := ret + 1; }
      assert Took(before, slots[slot].View(), raised[slot]);
      assert forall i :: 0 <= i < |slots| && i != slot ==> slots[i].View() == old@Before(slots[i].View());
    }
  }
}
