// The card-type and slot registry of pdm/driver/src/pdm_drv_ext.c: which card types have driver
// callbacks, which slot holds which card, and the callbacks made because of it.

module Registry {

  const ETINDEV_NULL := -1
  const EINVAL := 22
  const EEXIST := 17
  const ENODEV := 19

  // card_type_info_t: only whether the two callback pointers are set.
  datatype TypeInfo = TypeInfo(cbOnline: bool, cbOffline: bool)

  // A successful online callback, or an offline callback, made with the callbacks of one card type.
  datatype Call = On(card: int) | Off(card: int)

  // The interrupt mask register of a slot; not every slot has one.
  datatype Mask = NoRegister | Masked | Unmasked

  // pdm_enable_int_reg and pdm_disable_int_reg
  function WriteMask(m: Mask, masked: bool): Mask {
    if m.NoRegister? then m else if masked then Masked else Unmasked
  }

  // slot_info_t and the slot's mask register. `card` is type_info: ETINDEV_NULL for a null pointer, else
  // the type pointed at. `calls` records the callbacks made for this slot.
  datatype Slot = Slot(card: int, isr: bool, enabled: bool, mask: Mask, calls: seq<Call>)

  // cbRet[i] is what an online callback would currently return for slot i; the environment sets it.
  datatype Reg = Reg(types: seq<TypeInfo>, slots: seq<Slot>, cbRet: seq<int>)

  predicate TypeErr(g: Reg, t: int) { t < 0 || |g.types| <= t }
  predicate SlotErr(g: Reg, i: int) { i < 0 || |g.slots| <= i }

  ghost predicate Shape(g: Reg) {
    |g.cbRet| == |g.slots| && forall i {:trigger g.slots[i]} :: 0 <= i < |g.slots| ==> -1 <= g.slots[i].card < |g.types|
  }

  // ---------- operations ----------

  // One slot's part of a registration of type t.
  function RegisterSlot(s: Slot, t: int, ret: int): Slot {
    if s.card == t && ret >= 0 then s.(calls := s.calls + [On(t)]) else s
  }

  // The return value after the first n slots: that of the last callback made, 0 if none was.
  function RegisterRet(g: Reg, t: int, n: nat): int
    requires n <= |g.slots| == |g.cbRet|
  {
    if n == 0 then 0
    else if g.slots[n - 1].card == t then g.cbRet[n - 1]
    else RegisterRet(g, t, n - 1)
  }

  predicate Registered(g: Reg, t: int)
    requires !TypeErr(g, t)
  {
    g.types[t].cbOnline || g.types[t].cbOffline
  }

  // pdm_reg_online_offline_cb; the flags say which of the two callbacks is not NULL.
  function Register(g: Reg, t: int, cbOnline: bool, cbOffline: bool): (r: (Reg, int))
    requires Shape(g)
  {
    if TypeErr(g, t) || !cbOnline || !cbOffline then (g, -EINVAL)
    else if Registered(g, t) then (g, -EEXIST)
    else
      (g.(types := g.types[t := TypeInfo(true, true)],
          slots := seq(|g.slots|, i requires 0 <= i < |g.slots| => RegisterSlot(g.slots[i], t, g.cbRet[i]))),
       RegisterRet(g, t, |g.slots|))
  }

  // Unregistering type t would call a null offline callback: a slot holds a card of a type that is not
  // registered.
  predicate NullCall(g: Reg, t: int) {
    !TypeErr(g, t) && !g.types[t].cbOffline && exists i :: 0 <= i < |g.slots| && g.slots[i].card == t
  }

  // pdm_unreg_online_offline_cb
  function Unregister(g: Reg, t: int): (g': Reg)
    requires Shape(g) && !NullCall(g, t)
  {
    if TypeErr(g, t) then g
    else
      g.(types := g.types[t := TypeInfo(false, false)],
         slots := seq(|g.slots|, i requires 0 <= i < |g.slots| =>
                    var s := g.slots[i]; if s.card == t then s.(calls := s.calls + [Off(t)]) else s))
  }

  // pdm_card_online
  function Online(g: Reg, i: int, t: int): (r: (Reg, int))
    requires Shape(g)
  {
    if SlotErr(g, i) || TypeErr(g, t) then (g, -EINVAL)
    else if g.slots[i].card != ETINDEV_NULL then (g, -EEXIST)
    else if g.types[t].cbOnline then
      if g.cbRet[i] < 0 then (g, g.cbRet[i])
      else (g.(slots := g.slots[i := g.slots[i].(card := t, calls := g.slots[i].calls + [On(t)])]), g.cbRet[i])
    else (g.(slots := g.slots[i := g.slots[i].(card := t)]), 0)
  }

  // pdm_card_offline
  function Offline(g: Reg, i: int): (g': Reg)
    requires Shape(g)
  {
    if SlotErr(g, i) || g.slots[i].card == ETINDEV_NULL then g
    else
      var s := g.slots[i];
      var calls := if g.types[s.card].cbOffline then s.calls + [Off(s.card)] else s.calls;
      g.(slots := g.slots[i := Slot(ETINDEV_NULL, false, false, WriteMask(s.mask, true), calls)])
  }

  // pdm_request_irq
  function RequestIrq(g: Reg, i: int, isr: bool): (r: (Reg, int)) {
    if SlotErr(g, i) || !isr then (g, -EINVAL)
    else if g.slots[i].card == ETINDEV_NULL then (g, -ENODEV)
    else if g.slots[i].isr then (g, -EEXIST)
    else (g.(slots := g.slots[i := g.slots[i].(isr := true)]), 0)
  }

  // pdm_enable_int and pdm_disable_int
  function SetEnabled(g: Reg, i: int, on: bool): (r: (Reg, int)) {
    if SlotErr(g, i) then (g, -EINVAL)
    else (g.(slots := g.slots[i := g.slots[i].(enabled := on, mask := WriteMask(g.slots[i].mask, !on))]), 0)
  }

  // pdm_free_irq
  function FreeIrq(g: Reg, i: int): (g': Reg) {
    if SlotErr(g, i) then g
    else
      var s := g.slots[i];
      g.(slots := g.slots[i := s.(isr := false, enabled := false, mask := WriteMask(s.mask, true))])
  }

  // pdm_ioctl_card_on_off_line of pdm/driver/src/file_op.c; `self` is the minor of the device file.
  function Ioctl(g: Reg, self: int, i: int, t: int): (r: (Reg, int))
    requires Shape(g)
  {
    if SlotErr(g, i) || i == self || (t != ETINDEV_NULL && TypeErr(g, t)) then (g, -EINVAL)
    else if t == ETINDEV_NULL then (Offline(g, i), 0)
    else Online(g, i, t)
  }

  // ---------- the events a driver core can see ----------

  datatype DrvEvent =
    | RegisterEv(card: int, cbOnline: bool, cbOffline: bool)
    | UnregisterEv(card: int)
    | OnlineEv(slot: int, card: int)
    | OfflineEv(slot: int)
    | RequestIrqEv(slot: int, isr: bool)
    | FreeIrqEv(slot: int)
    | EnableEv(slot: int, on: bool)
    | OracleEv(cbRet: seq<int>)

  // The event makes sense and calls no null callback.
  predicate DrvSafe(g: Reg, e: DrvEvent) {
    (e.OracleEv? ==> |e.cbRet| == |g.slots|) && (e.UnregisterEv? ==> !NullCall(g, e.card))
  }

  function DrvStep(g: Reg, e: DrvEvent): (g': Reg)
    requires Shape(g) && DrvSafe(g, e)
    ensures Shape(g') && |g'.slots| == |g.slots| && |g'.types| == |g.types|
  {
    match e
    case RegisterEv(t, a, b) => Register(g, t, a, b).0
    case UnregisterEv(t) => Unregister(g, t)
    case OnlineEv(i, t) => Online(g, i, t).0
    case OfflineEv(i) => Offline(g, i)
    case RequestIrqEv(i, isr) => RequestIrq(g, i, isr).0
    case FreeIrqEv(i) => FreeIrq(g, i)
    case EnableEv(i, on) => SetEnabled(g, i, on).0
    case OracleEv(r) => g.(cbRet := r)
  }

  // ---------- activity ----------

  // Successful online and offline callbacks of one slot alternate, and each pair is of one type.
  ghost predicate Paired(c: seq<Call>) {
    forall k {:trigger c[k]} :: 0 <= k < |c| ==>
      if k % 2 == 0 then c[k].On? else c[k].Off? && c[k].card == c[k - 1].card
  }

  // The callback activity the slot should show: that of its card, if the type is registered.
  ghost predicate SlotOk(g: Reg, i: nat)
    requires Shape(g) && i < |g.slots|
  {
    var s := g.slots[i];
    && Paired(s.calls)
    && (Active(s) <==> s.card != ETINDEV_NULL && g.types[s.card].cbOnline)
    && (Active(s) ==> s.calls[|s.calls| - 1] == On(s.card))
    && (s.isr ==> s.card != ETINDEV_NULL)
  }

  // The driver of the slot has been told of a card and not yet told that it left.
  predicate Active(s: Slot) { |s.calls| % 2 == 1 }

  ghost predicate Ok(g: Reg) {
    && Shape(g)
    && (forall t {:trigger g.types[t]} :: 0 <= t < |g.types| ==> (g.types[t].cbOnline <==> g.types[t].cbOffline))
    && (forall i {:trigger SlotOk(g, i)} :: 0 <= i < |g.slots| ==> SlotOk(g, i))
  }

  // No online callback for a card of type t fails.
  ghost predicate Clean(g: Reg, t: int)
    requires Shape(g)
  {
    forall i {:trigger g.slots[i]} :: 0 <= i < |g.slots| && g.slots[i].card == t ==> g.cbRet[i] >= 0
  }

  // A registration that is not refused.
  predicate Accepted(g: Reg, t: int, cbOnline: bool, cbOffline: bool) {
    !TypeErr(g, t) && cbOnline && cbOffline && !Registered(g, t)
  }

  // What the environment is trusted with: null callbacks are not called, and those made by a
  // registration succeed.
  ghost predicate DrvPossible(g: Reg, e: DrvEvent)
    requires Shape(g)
  {
    DrvSafe(g, e) && (e.RegisterEv? && Accepted(g, e.card, e.cbOnline, e.cbOffline) ==> Clean(g, e.card))
  }

  // The states st the driver core passes through under the events es.
  ghost predicate DrvBehavior(st: seq<Reg>, es: seq<DrvEvent>) {
    && |st| == |es| + 1
    && (forall k {:trigger Shape(st[k])} :: 0 <= k < |st| ==> Shape(st[k]))
    && (forall k {:trigger DrvStepAt(st, es, k)} :: 0 <= k < |es| ==> DrvStepAt(st, es, k))
  }

  ghost predicate DrvStepAt(st: seq<Reg>, es: seq<DrvEvent>, k: nat)
    requires k < |es| && k + 1 < |st|
  {
    Shape(st[k]) && DrvSafe(st[k], es[k]) && st[k + 1] == DrvStep(st[k], es[k])
  }

  // Over the whole run the environment keeps to what it is trusted with.
  ghost predicate DrvTrusted(st: seq<Reg>, es: seq<DrvEvent>)
    requires DrvBehavior(st, es)
  {
    forall k {:trigger DrvPossible(st[k], es[k])} :: 0 <= k < |es| ==> DrvPossible(st[k], es[k])
  }

  // pdm_ctor_mng_info; the mask registers are as the hardware left them.
  function DrvInit(nTypes: nat, masks: seq<Mask>): (g: Reg)
    ensures Ok(g)
  {
    Reg(seq(nTypes, _ => TypeInfo(false, false)),
        seq(|masks|, i requires 0 <= i < |masks| => Slot(ETINDEV_NULL, false, false, masks[i], [])),
        seq(|masks|, _ => 0))
  }
}
