// What the driver core remembers, in terms of what happened: which types are registered, which card is in
// a slot, whether its interrupt is requested, enabled and unmasked. First one call at a time, then over
// every run from loading.

module RegistryRuns {
  import opened Registry
  import opened RegistryProofs

  // ---------- single calls ----------

  // The slot's callbacks, isr, flag and mask register, everything but the card.
  ghost predicate SameBut(s: Slot, s': Slot, card: bool, isr: bool, flag: bool, calls: bool) {
    && (!card ==> s'.card == s.card) && (!isr ==> s'.isr == s.isr)
    && (!flag ==> s'.enabled == s.enabled && s'.mask == s.mask) && (!calls ==> s'.calls == s.calls)
  }

  // All other slots, and the answers of the environment, stay.
  ghost predicate OnlySlot(g: Reg, g': Reg, i: int) {
    && |g'.slots| == |g.slots| && g'.cbRet == g.cbRet
    && forall j {:trigger g'.slots[j]} :: 0 <= j < |g.slots| && j != i ==> g'.slots[j] == g.slots[j]
  }

  // A registration is refused for a bad type, a null callback, or a type that has a driver; then nothing
  // changes. Otherwise the type has both callbacks, every slot holding the type has been told unless that
  // failed, and the answer is that of the last slot holding it, zero if there is none.
  lemma RegisterLaw(g: Reg, t: int, cbOnline: bool, cbOffline: bool)
    requires Shape(g)
    ensures var (g', ret) := Register(g, t, cbOnline, cbOffline);
            if t < 0 || |g.types| <= t || !cbOnline || !cbOffline then g' == g && ret == -22
            else if g.types[t].cbOnline || g.types[t].cbOffline then g' == g && ret == -17
            else
              && |g'.types| == |g.types| && |g'.slots| == |g.slots| && g'.cbRet == g.cbRet
              && g'.types[t].cbOnline && g'.types[t].cbOffline
              && (forall u :: 0 <= u < |g.types| && u != t ==> g'.types[u] == g.types[u])
              && (forall i :: 0 <= i < |g.slots| ==>
                    && SameBut(g.slots[i], g'.slots[i], false, false, false, true)
                    && g'.slots[i].calls == if g.slots[i].card == t && g.cbRet[i] >= 0 then g.slots[i].calls + [On(t)]
                                            else g.slots[i].calls)
              && ((forall i :: 0 <= i < |g.slots| ==> g.slots[i].card != t) ==> ret == 0)
              && (forall i :: 0 <= i < |g.slots| && LastWith(g, t, i, |g.slots|) ==> ret == g.cbRet[i])
  {
    if !TypeErr(g, t) {
      LastAnswer(g, t, |g.slots|);
    }
  }

  // Of the first n slots, i is the last that holds type t.
  ghost predicate LastWith(g: Reg, t: int, i: nat, n: nat)
    requires i < n <= |g.slots|
  {
    g.slots[i].card == t && forall j :: i < j < n ==> g.slots[j].card != t
  }

  lemma {:induction false} LastAnswer(g: Reg, t: int, n: nat)
    requires n <= |g.slots| == |g.cbRet|
    ensures (forall i :: 0 <= i < n ==> g.slots[i].card != t) ==> RegisterRet(g, t, n) == 0
    ensures forall i :: 0 <= i < n && LastWith(g, t, i, n) ==> RegisterRet(g, t, n) == g.cbRet[i]
  {
    if n > 0 {
      LastAnswer(g, t, n - 1);
      forall i | 0 <= i < n && LastWith(g, t, i, n) ensures RegisterRet(g, t, n) == g.cbRet[i] {
        if i < n - 1 { assert g.slots[n - 1].card != t && LastWith(g, t, i, n - 1); }
      }
    }
  }

  // After an unregistration of a valid type it has no callback left, and no slot holding it is active.
  // Cards, interrupts, other types and other slots are as before.
  lemma UnregisterLaw(g: Reg, t: int)
    requires Ok(g) && 0 <= t < |g.types| && !NullCall(g, t)
    ensures var g' := Unregister(g, t);
            && |g'.types| == |g.types| && |g'.slots| == |g.slots| && g'.cbRet == g.cbRet
            && !g'.types[t].cbOnline && !g'.types[t].cbOffline
            && (forall u :: 0 <= u < |g.types| && u != t ==> g'.types[u] == g.types[u])
            && (forall i :: 0 <= i < |g.slots| ==>
                  if g.slots[i].card != t then g'.slots[i] == g.slots[i]
                  else
                    && SameBut(g.slots[i], g'.slots[i], false, false, false, true)
                    && !Active(g'.slots[i]) && g'.slots[i].calls == g.slots[i].calls + [Off(t)])
  {
    var g' := Unregister(g, t);
    forall i | 0 <= i < |g.slots| && g.slots[i].card == t
      ensures g'.slots[i].calls == g.slots[i].calls + [Off(t)] && !Active(g'.slots[i])
    {
      assert SlotOk(g, i);
    }
  }

  // A card comes on line exactly if slot and type are valid, the slot is empty, and the type's driver, if
  // it has one, accepts. Otherwise the answer is negative and nothing changes.
  lemma OnlineLaw(g: Reg, i: int, t: int)
    requires Shape(g)
    ensures var (g', ret) := Online(g, i, t);
            if 0 <= i < |g.slots| && 0 <= t < |g.types| && g.slots[i].card < 0
               && (g.types[t].cbOnline ==> g.cbRet[i] >= 0)
            then
              && ret >= 0 && OnlySlot(g, g', i) && g'.types == g.types && g'.slots[i].card == t
              && SameBut(g.slots[i], g'.slots[i], true, false, false, true)
              && g'.slots[i].calls == if g.types[t].cbOnline then g.slots[i].calls + [On(t)] else g.slots[i].calls
            else g' == g && ret < 0
  {
  }

  // Taking an occupied slot off line leaves it without card and isr, disabled, and masked if it has a mask
  // register, and tells the card's driver, if there is one; an empty or bad slot is left alone.
  lemma OfflineLaw(g: Reg, i: int)
    requires Shape(g)
    ensures var g' := Offline(g, i);
            if !(0 <= i < |g.slots|) || g.slots[i].card < 0 then g' == g
            else
              && OnlySlot(g, g', i) && g'.types == g.types && g'.slots[i].card < 0 && Quiesced(g.slots[i], g'.slots[i])
              && var t := g.slots[i].card;
              && g'.slots[i].calls == if g.types[t].cbOffline then g.slots[i].calls + [Off(t)] else g.slots[i].calls
  {
  }

  // No isr, disabled, and masked as far as can be
  predicate Quiesced(s: Slot, s': Slot) {
    !s'.isr && !s'.enabled && !s'.mask.Unmasked? && (s'.mask.NoRegister? <==> s.mask.NoRegister?)
  }

  // An interrupt is granted exactly to an occupied slot without an isr, for an isr that is not null; the
  // slot then has one. Otherwise the answer is negative and nothing changes.
  lemma RequestIrqLaw(g: Reg, i: int, isr: bool)
    requires Shape(g)
    ensures var (g', ret) := RequestIrq(g, i, isr);
            if 0 <= i < |g.slots| && isr && g.slots[i].card >= 0 && !g.slots[i].isr
            then && ret == 0 && OnlySlot(g, g', i) && g'.types == g.types && g'.slots[i].isr
                 && SameBut(g.slots[i], g'.slots[i], false, true, false, false)
            else g' == g && ret < 0
  {
  }

  lemma FreeIrqLaw(g: Reg, i: int)
    requires Shape(g)
    ensures var g' := FreeIrq(g, i);
            if !(0 <= i < |g.slots|) then g' == g
            else && OnlySlot(g, g', i) && g'.types == g.types && Quiesced(g.slots[i], g'.slots[i])
                 && SameBut(g.slots[i], g'.slots[i], false, true, true, false)
  {
  }

  // Enabling sets the flag and opens the mask register, if there is one; disabling does the reverse.
  lemma SetEnabledLaw(g: Reg, i: int, on: bool)
    requires Shape(g)
    ensures var (g', ret) := SetEnabled(g, i, on);
            if !(0 <= i < |g.slots|) then g' == g && ret < 0
            else && ret == 0 && OnlySlot(g, g', i) && g'.types == g.types && g'.slots[i].enabled == on
                 && SameBut(g.slots[i], g'.slots[i], false, false, true, false)
                 && g'.slots[i].mask == if g.slots[i].mask.NoRegister? then NoRegister
                                        else if on then Unmasked else Masked
  {
  }

  // The ioctl reaches no bad slot, not the device's own, and no bad type. Otherwise a null card takes the
  // slot off line, whatever was in it, and any other brings that card on line.
  lemma IoctlLaw(g: Reg, self: int, i: int, t: int)
    requires Shape(g)
    ensures var (g', ret) := Ioctl(g, self, i, t);
            if !(0 <= i < |g.slots|) || i == self || t < -1 || |g.types| <= t then g' == g && ret < 0
            else
              && OnlySlot(g, g', i) && g'.types == g.types
              && (t == -1 ==> ret == 0 && g'.slots[i].card == -1)
              && (t >= 0 ==>
                    if g.slots[i].card == -1 && (g.types[t].cbOnline ==> g.cbRet[i] >= 0)
                    then ret >= 0 && g'.slots[i].card == t
                    else ret < 0 && g' == g)
  {
    OfflineLaw(g, i);
    OnlineLaw(g, i, t);
  }

  // ---------- histories ----------

  // Before step n something of the kind on happened, and nothing of the kind off since.
  ghost predicate Since(n: nat, on: nat -> bool, off: nat -> bool) {
    exists k: nat :: k < n && on(k) && forall j: nat :: k < j < n ==> !off(j)
  }

  // A fact that begins with on, ends with off and otherwise stays holds exactly since an on.
  lemma {:induction false} SinceIff(p: nat -> bool, on: nat -> bool, off: nat -> bool, n: nat)
    requires !p(0) && forall k: nat :: k < n ==> (p(k + 1) <==> on(k) || (p(k) && !off(k)))
    ensures p(n) <==> Since(n, on, off)
  {
    if n > 0 {
      SinceIff(p, on, off, n - 1);
      if on(n - 1) {
        assert Since(n, on, off);
      } else if p(n - 1) && !off(n - 1) {
        var k: nat :| k < n - 1 && on(k) && forall j: nat :: k < j < n - 1 ==> !off(j);
        assert forall j: nat :: k < j < n ==> !off(j);
      } else {
        NotSince(p, on, off, n);
      }
    }
  }

  lemma NotSince(p: nat -> bool, on: nat -> bool, off: nat -> bool, n: nat)
    requires n > 0 && !on(n - 1) && (off(n - 1) || !Since(n - 1, on, off))
    ensures !Since(n, on, off)
  {
    forall k: nat | k < n && on(k) ensures exists j: nat :: k < j < n && off(j) {
      if off(n - 1) {
        assert k < n - 1;
      } else {
        var j: nat :| k < j < n - 1 && off(j);
      }
    }
  }

  lemma {:induction false} SizesStay(st: seq<Reg>, es: seq<DrvEvent>, n: nat)
    requires DrvBehavior(st, es) && n < |st|
    ensures |st[n].slots| == |st[0].slots| && |st[n].types| == |st[0].types|
  {
    if n > 0 {
      SizesStay(st, es, n - 1);
      assert DrvStepAt(st, es, n - 1);
    }
  }

  // What the events of a run do to type t and slot i.
  ghost predicate Registers(es: seq<DrvEvent>, t: int, k: nat) { k < |es| && es[k] == RegisterEv(t, true, true) }
  ghost predicate Unregisters(es: seq<DrvEvent>, t: int, k: nat) { k < |es| && es[k] == UnregisterEv(t) }

  ghost predicate Occupied(st: seq<Reg>, i: nat, k: nat) { k < |st| && i < |st[k].slots| && st[k].slots[i].card >= 0 }

  ghost predicate PlugsIn(st: seq<Reg>, es: seq<DrvEvent>, i: nat, t: int, k: nat) {
    && k < |es| && es[k] == OnlineEv(i, t) && k < |st| && !Occupied(st, i, k)
    && 0 <= t < |st[k].types| && i < |st[k].cbRet| && (st[k].types[t].cbOnline ==> st[k].cbRet[i] >= 0)
  }
  ghost predicate PlugsOut(es: seq<DrvEvent>, i: nat, k: nat) { k < |es| && es[k] == OfflineEv(i) }

  ghost predicate Requests(st: seq<Reg>, es: seq<DrvEvent>, i: nat, k: nat) {
    k < |es| && es[k] == RequestIrqEv(i, true) && Occupied(st, i, k)
  }
  ghost predicate Frees(es: seq<DrvEvent>, i: nat, k: nat) {
    k < |es| && (es[k] == FreeIrqEv(i) || es[k] == OfflineEv(i))
  }

  ghost predicate Enables(es: seq<DrvEvent>, i: nat, k: nat) { k < |es| && es[k] == EnableEv(i, true) }
  ghost predicate Disables(st: seq<Reg>, es: seq<DrvEvent>, i: nat, k: nat) {
    && k < |es|
    && (es[k] == EnableEv(i, false) || es[k] == FreeIrqEv(i) || (es[k] == OfflineEv(i) && Occupied(st, i, k)))
  }

  ghost function Registering(es: seq<DrvEvent>, t: int): nat -> bool { (k: nat) => Registers(es, t, k) }
  ghost function Unregistering(es: seq<DrvEvent>, t: int): nat -> bool { (k: nat) => Unregisters(es, t, k) }
  ghost function PluggingIn(st: seq<Reg>, es: seq<DrvEvent>, i: nat, t: int): nat -> bool {
    (k: nat) => PlugsIn(st, es, i, t, k)
  }
  ghost function PluggingOut(es: seq<DrvEvent>, i: nat): nat -> bool { (k: nat) => PlugsOut(es, i, k) }
  ghost function Requesting(st: seq<Reg>, es: seq<DrvEvent>, i: nat): nat -> bool { (k: nat) => Requests(st, es, i, k) }
  ghost function Freeing(es: seq<DrvEvent>, i: nat): nat -> bool { (k: nat) => Frees(es, i, k) }
  ghost function Enabling(es: seq<DrvEvent>, i: nat): nat -> bool { (k: nat) => Enables(es, i, k) }
  ghost function Disabling(st: seq<Reg>, es: seq<DrvEvent>, i: nat): nat -> bool { (k: nat) => Disables(st, es, i, k) }

  // A type is registered exactly if a registration with both callbacks has no later unregistration.
  lemma RegisteredSince(st: seq<Reg>, es: seq<DrvEvent>, nTypes: nat, masks: seq<Mask>, t: nat, n: nat)
    requires DrvBehavior(st, es) && st[0] == DrvInit(nTypes, masks) && t < nTypes && n < |st|
    ensures |st[n].types| == nTypes && (st[n].types[t].cbOnline <==> st[n].types[t].cbOffline)
    ensures st[n].types[t].cbOnline <==> Since(n, Registering(es, t), Unregistering(es, t))
  {
    forall k | 0 <= k < |st| ensures |st[k].types| == nTypes { SizesStay(st, es, k); }
    BothCallbacks(st, es, n);
    var p := (k: nat) => k < |st| && t < |st[k].types| && st[k].types[t].cbOnline;
    var on, off := Registering(es, t), Unregistering(es, t);
    forall k: nat | k < n ensures p(k + 1) <==> on(k) || (p(k) && !off(k)) {
      BothCallbacks(st, es, k);
      TypeStep(st, es, t, k);
    }
    SinceIff(p, on, off, n);
  }

  lemma {:induction false} BothCallbacks(st: seq<Reg>, es: seq<DrvEvent>, n: nat)
    requires DrvBehavior(st, es) && n < |st|
    requires forall t {:trigger st[0].types[t]} :: 0 <= t < |st[0].types| ==>
               (st[0].types[t].cbOnline <==> st[0].types[t].cbOffline)
    ensures forall t {:trigger st[n].types[t]} :: 0 <= t < |st[n].types| ==>
              (st[n].types[t].cbOnline <==> st[n].types[t].cbOffline)
  {
    if n > 0 {
      BothCallbacks(st, es, n - 1);
      assert DrvStepAt(st, es, n - 1);
    }
  }

  lemma TypeStep(st: seq<Reg>, es: seq<DrvEvent>, t: nat, k: nat)
    requires DrvBehavior(st, es) && k < |es| && t < |st[k].types| == |st[k + 1].types|
    requires st[k].types[t].cbOnline <==> st[k].types[t].cbOffline
    ensures st[k + 1].types[t].cbOnline <==>
              Registers(es, t, k) || (st[k].types[t].cbOnline && !Unregisters(es, t, k))
  {
    assert DrvStepAt(st, es, k);
  }

  // A slot holds a card of type t exactly if one was plugged in and accepted, and the slot has not been
  // unplugged since.
  lemma CardSince(st: seq<Reg>, es: seq<DrvEvent>, nTypes: nat, masks: seq<Mask>, i: nat, t: nat, n: nat)
    requires DrvBehavior(st, es) && st[0] == DrvInit(nTypes, masks) && i < |masks| && n < |st|
    ensures |st[n].slots| == |masks|
    ensures st[n].slots[i].card == t <==> Since(n, PluggingIn(st, es, i, t), PluggingOut(es, i))
  {
    forall k | 0 <= k < |st| ensures |st[k].slots| == |masks| { SizesStay(st, es, k); }
    var p := (k: nat) => k < |st| && i < |st[k].slots| && st[k].slots[i].card == t;
    var on, off := PluggingIn(st, es, i, t), PluggingOut(es, i);
    forall k: nat | k < n ensures p(k + 1) <==> on(k) || (p(k) && !off(k)) { CardStep(st, es, i, t, k); }
    SinceIff(p, on, off, n);
  }

  lemma CardStep(st: seq<Reg>, es: seq<DrvEvent>, i: nat, t: nat, k: nat)
    requires DrvBehavior(st, es) && k < |es| && i < |st[k].slots| == |st[k + 1].slots|
    ensures st[k + 1].slots[i].card == t <==>
              PlugsIn(st, es, i, t, k) || (st[k].slots[i].card == t && !PlugsOut(es, i, k))
  {
    assert DrvStepAt(st, es, k) && Shape(st[k]);
  }

  // A slot has an isr exactly if one was requested while it was occupied, and the slot has been neither
  // freed nor unplugged since.
  lemma IsrSince(st: seq<Reg>, es: seq<DrvEvent>, nTypes: nat, masks: seq<Mask>, i: nat, n: nat)
    requires DrvBehavior(st, es) && st[0] == DrvInit(nTypes, masks) && i < |masks| && n < |st|
    ensures |st[n].slots| == |masks|
    ensures st[n].slots[i].isr <==> Since(n, Requesting(st, es, i), Freeing(es, i))
  {
    forall k | 0 <= k < |st| ensures |st[k].slots| == |masks| { SizesStay(st, es, k); }
    var p := (k: nat) => k < |st| && i < |st[k].slots| && st[k].slots[i].isr;
    var on, off := Requesting(st, es, i), Freeing(es, i);
    forall k: nat | k < n ensures p(k + 1) <==> on(k) || (p(k) && !off(k)) {
      IsrOccupied(st, es, i, k);
      IsrStep(st, es, i, k);
    }
    SinceIff(p, on, off, n);
  }

  // Only an occupied slot has an isr.
  lemma {:induction false} IsrOccupied(st: seq<Reg>, es: seq<DrvEvent>, i: nat, n: nat)
    requires DrvBehavior(st, es) && n < |st| && i < |st[0].slots| && !st[0].slots[i].isr
    ensures |st[n].slots| == |st[0].slots| && (st[n].slots[i].isr ==> st[n].slots[i].card >= 0)
  {
    if n > 0 {
      IsrOccupied(st, es, i, n - 1);
      assert DrvStepAt(st, es, n - 1) && Shape(st[n - 1]);
    }
  }

  lemma IsrStep(st: seq<Reg>, es: seq<DrvEvent>, i: nat, k: nat)
    requires DrvBehavior(st, es) && k < |es| && i < |st[k].slots| == |st[k + 1].slots|
    requires st[k].slots[i].isr ==> st[k].slots[i].card >= 0
    ensures st[k + 1].slots[i].isr <==> Requests(st, es, i, k) || (st[k].slots[i].isr && !Frees(es, i, k))
  {
    assert DrvStepAt(st, es, k) && Shape(st[k]);
  }

  // A slot is enabled exactly if it was enabled and neither disabled nor freed since, nor unplugged with a
  // card in it.
  lemma EnabledSince(st: seq<Reg>, es: seq<DrvEvent>, nTypes: nat, masks: seq<Mask>, i: nat, n: nat)
    requires DrvBehavior(st, es) && st[0] == DrvInit(nTypes, masks) && i < |masks| && n < |st|
    ensures |st[n].slots| == |masks|
    ensures st[n].slots[i].enabled <==> Since(n, Enabling(es, i), Disabling(st, es, i))
  {
    forall k | 0 <= k < |st| ensures |st[k].slots| == |masks| { SizesStay(st, es, k); }
    var p := (k: nat) => k < |st| && i < |st[k].slots| && st[k].slots[i].enabled;
    var on, off := Enabling(es, i), Disabling(st, es, i);
    forall k: nat | k < n ensures p(k + 1) <==> on(k) || (p(k) && !off(k)) { EnabledStep(st, es, i, k); }
    SinceIff(p, on, off, n);
  }

  lemma EnabledStep(st: seq<Reg>, es: seq<DrvEvent>, i: nat, k: nat)
    requires DrvBehavior(st, es) && k < |es| && i < |st[k].slots| == |st[k + 1].slots|
    ensures st[k + 1].slots[i].enabled <==> Enables(es, i, k) || (st[k].slots[i].enabled && !Disables(st, es, i, k))
  {
    assert DrvStepAt(st, es, k) && Shape(st[k]);
  }

  // The mask register follows the flag from the first call that touches them on; until then it is as the
  // hardware left it.
  lemma {:induction false} MaskFollowsFlag(st: seq<Reg>, es: seq<DrvEvent>, i: nat, n: nat)
    requires DrvBehavior(st, es) && i < |st[0].slots| && n < |st|
    ensures |st[n].slots| == |st[0].slots|
    ensures var m0, s := st[0].slots[i].mask, st[n].slots[i];
            s.mask == if m0.NoRegister? then NoRegister
                      else if exists k: nat :: k < n && (Enables(es, i, k) || Disables(st, es, i, k))
                      then if s.enabled then Unmasked else Masked
                      else m0
  {
    if n > 0 {
      MaskFollowsFlag(st, es, i, n - 1);
      MaskStep(st, es, i, n - 1);
      assert (exists k: nat :: k < n && (Enables(es, i, k) || Disables(st, es, i, k))) <==>
               (exists k: nat :: k < n - 1 && (Enables(es, i, k) || Disables(st, es, i, k)))
               || Enables(es, i, n - 1) || Disables(st, es, i, n - 1);
    }
  }

  lemma MaskStep(st: seq<Reg>, es: seq<DrvEvent>, i: nat, k: nat)
    requires DrvBehavior(st, es) && k < |es| && i < |st[k].slots|
    ensures |st[k + 1].slots| == |st[k].slots|
    ensures var s, s' := st[k].slots[i], st[k + 1].slots[i];
            && (s'.mask.NoRegister? <==> s.mask.NoRegister?)
            && if Enables(es, i, k) || Disables(st, es, i, k)
               then s.mask.NoRegister? || s'.mask == if s'.enabled then Unmasked else Masked
               else s'.mask == s.mask && s'.enabled == s.enabled
  {
    assert DrvStepAt(st, es, k) && Shape(st[k]);
  }

  // ---------- activity ----------

  // By the events es, type t has a driver after n of them.
  ghost predicate HasDriver(es: seq<DrvEvent>, t: int, n: nat) {
    Since(n, Registering(es, t), Unregistering(es, t))
  }

  // Over every run from loading on which the callbacks of registrations succeed: the driver of a slot has
  // been told of a card exactly if the slot holds one and a driver for its type has come and not gone.
  lemma RunActive(st: seq<Reg>, es: seq<DrvEvent>, nTypes: nat, masks: seq<Mask>, i: nat, n: nat)
    requires DrvBehavior(st, es) && DrvTrusted(st, es) && st[0] == DrvInit(nTypes, masks) && i < |masks| && n < |st|
    ensures |st[n].slots| == |masks|
    ensures var s := st[n].slots[i];
            && (Active(s) <==> s.card >= 0 && HasDriver(es, s.card, n))
            && (Active(s) ==> s.calls[|s.calls| - 1] == On(s.card))
  {
    RunOk(st, es, n);
    assert SlotOk(st[n], i) && Shape(st[n]);
    var t := st[n].slots[i].card;
    if t >= 0 { RegisteredSince(st, es, nTypes, masks, t, n); }
  }

  // The order of events does not matter: two histories that end with the same card in a slot, and with or
  // without a driver for it, end with the same activity.
  lemma ActivityOrderIndependent(st: seq<Reg>, es: seq<DrvEvent>, su: seq<Reg>, fs: seq<DrvEvent>,
                                 nTypes: nat, masks: seq<Mask>, i: nat)
    requires DrvBehavior(st, es) && DrvTrusted(st, es) && st[0] == DrvInit(nTypes, masks)
    requires DrvBehavior(su, fs) && DrvTrusted(su, fs) && su[0] == DrvInit(nTypes, masks)
    requires i < |masks| && |st[|es|].slots| == |su[|fs|].slots| == |masks|
    requires st[|es|].slots[i].card == su[|fs|].slots[i].card
    requires HasDriver(es, st[|es|].slots[i].card, |es|) <==> HasDriver(fs, su[|fs|].slots[i].card, |fs|)
    ensures Active(st[|es|].slots[i]) == Active(su[|fs|].slots[i])
  {
    RunActive(st, es, nTypes, masks, i, |es|);
    RunActive(su, fs, nTypes, masks, i, |fs|);
  }
}
