// pdm/driver/src/pdm_drv_ext.c in its own form: two global tables updated in place by loops.

module DriverCoreImpl {
  import opened Registry

  class DriverCore {
    const types: array<TypeInfo>  // s_card_type_info
    const slots: array<Slot>      // s_slot_info
    var cbRet: seq<int>           // the environment's answers to online callbacks

    ghost predicate Valid()
      reads this, types, slots
    {
      Shape(View())
    }

    ghost function View(): Reg
      reads this, types, slots
    {
      Reg(types[..], slots[..], cbRet)
    }

    constructor (nTypes: nat, masks: seq<Mask>)
      ensures Valid() && fresh(types) && fresh(slots)
      ensures View() == DrvInit(nTypes, masks)
    {
      types := new TypeInfo[nTypes](_ => TypeInfo(false, false));
      slots := new Slot[|masks|](i requires 0 <= i < |masks| => Slot(ETINDEV_NULL, false, false, masks[i], []));
      cbRet := seq(|masks|, _ => 0);
      new;
      assert types[..] == DrvInit(nTypes, masks).types;
      assert slots[..] == DrvInit(nTypes, masks).slots;
    }

    method RegOnlineOfflineCb(t: int, cbOnline: bool, cbOffline: bool) returns (ret: int)
      requires Valid()
      modifies types, slots
      ensures Valid() && (View(), ret) == Register(old(View()), t, cbOnline, cbOffline)
    {
      if t < 0 || types.Length <= t || !cbOnline || !cbOffline { return -EINVAL; }
      if types[t].cbOnline || types[t].cbOffline { return -EEXIST; }
      ghost var g := View();
      ret := 0;
      for i := 0 to slots.Length
        invariant ret == RegisterRet(g, t, i)
        invariant types[..] == g.types && |slots[..]| == |g.slots|
        invariant forall j :: 0 <= j < i ==> slots[j] == RegisterSlot(g.slots[j], t, g.cbRet[j])
        invariant forall j :: i <= j < slots.Length ==> slots[j] == g.slots[j]
      {
        if slots[i].card == t {
          ret := cbRet[i];
          if ret >= 0 {
            slots[i] := slots[i].(calls := slots[i].calls + [On(t)]);
          }
        }
      }
      types[t] := TypeInfo(true, true);
      assert slots[..] == Register(g, t, cbOnline, cbOffline).0.slots;
    }

    // Stops at a null callback, should it come to that.
    method UnregOnlineOfflineCb(t: int) returns (fault: bool)
      requires Valid()
      modifies types, slots
      ensures Valid() && (fault <==> NullCall(old(View()), t))
      ensures !fault ==> View() == Unregister(old(View()), t)
    {
      if t < 0 || types.Length <= t { return false; }
      ghost var g := View();
      var cbOffline := types[t].cbOffline;
      types[t] := TypeInfo(false, false);
      for i := 0 to slots.Length
        invariant types[..] == g.types[t := TypeInfo(false, false)]
        invariant forall j {:trigger g.slots[j]} :: 0 <= j < i && g.slots[j].card == t ==> cbOffline
        invariant forall j :: 0 <= j < i ==>
                    slots[j] == if g.slots[j].card == t then g.slots[j].(calls := g.slots[j].calls + [Off(t)])
                                else g.slots[j]
        invariant forall j :: i <= j < slots.Length ==> slots[j] == g.slots[j]
      {
        if slots[i].card == t {
          if !cbOffline { return true; }
          slots[i] := slots[i].(calls := slots[i].calls + [Off(t)]);
        }
      }
      fault := false;
      assert slots[..] == Unregister(g, t).slots;
    }

    method CardOnline(i: int, t: int) returns (ret: int)
      requires Valid()
      modifies slots
      ensures Valid() && (View(), ret) == Online(old(View()), i, t)
    {
      if i < 0 || slots.Length <= i || t < 0 || types.Length <= t { return -EINVAL; }
      if slots[i].card != ETINDEV_NULL { return -EEXIST; }
      ret := 0;
      if types[t].cbOnline {
        ret := cbRet[i];
        if ret < 0 { return; }
        slots[i] := slots[i].(calls := slots[i].calls + [On(t)]);
      }
      slots[i] := slots[i].(card := t);
      assert slots[..] == Online(old(View()), i, t).0.slots;
    }

    method RequestIrq(i: int, isr: bool) returns (ret: int)
      requires Valid()
      modifies slots
      ensures Valid() && (View(), ret) == Registry.RequestIrq(old(View()), i, isr)
    {
      if i < 0 || slots.Length <= i || !isr { return -EINVAL; }
      if slots[i].card == ETINDEV_NULL { return -ENODEV; }
      if slots[i].isr { return -EEXIST; }
      slots[i] := slots[i].(isr := true);
      ret := 0;
    }

    // pdm_enable_int and pdm_disable_int
    method SetEnabled(i: int, on: bool) returns (ret: int)
      requires Valid()
      modifies slots
      ensures Valid() && (View(), ret) == Registry.SetEnabled(old(View()), i, on)
    {
      if i < 0 || slots.Length <= i { return -EINVAL; }
      slots[i] := slots[i].(enabled := on);
      slots[i] := slots[i].(mask := WriteMask(slots[i].mask, !on));  // pdm_enable_int_reg, pdm_disable_int_reg
      assert slots[..] == Registry.SetEnabled(old(View()), i, on).0.slots;
      ret := 0;
    }

    // pdm_free_irq
    method FreeIrq(i: int)
      requires Valid()
      modifies slots
      ensures Valid() && View() == Registry.FreeIrq(old(View()), i)
    {
      if i < 0 || slots.Length <= i { return; }
      var ret := SetEnabled(i, false);
      slots[i] := slots[i].(isr := false);
    }

    method CardOffline(i: int)
      requires Valid()
      modifies slots
      ensures Valid() && View() == Offline(old(View()), i)
    {
      if i < 0 || slots.Length <= i { return; }
      if slots[i].card == ETINDEV_NULL { return; }
      var ret := SetEnabled(i, false);
      FreeIrq(i);
      var t := slots[i].card;
      if types[t].cbOffline {
        slots[i] := slots[i].(calls := slots[i].calls + [Off(t)]);
      }
      slots[i] := slots[i].(card := ETINDEV_NULL);
    }

    // pdm_ioctl_card_on_off_line
    method CardOnOffLine(self: int, i: int, t: int) returns (ret: int)
      requires Valid()
      modifies slots
      ensures Valid() && (View(), ret) == Ioctl(old(View()), self, i, t)
    {
      if i < 0 || slots.Length <= i || i == self || (t != ETINDEV_NULL && (t < 0 || types.Length <= t)) {
        return -EINVAL;
      }
      if t == ETINDEV_NULL {
        CardOffline(i);
        ret := 0;
      } else {
        ret := CardOnline(i, t);
      }
    }
  }
}
