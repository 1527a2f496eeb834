// A slot's driver callbacks are active exactly when the type of its card is registered.

module RegistryProofs {
  import opened Registry

  lemma PairedAppend(c: seq<Call>, x: Call)
    requires Paired(c)
    requires if |c| % 2 == 0 then x.On? else x.Off? && c[|c| - 1] == On(x.card)
    ensures Paired(c + [x])
  {
  }

  lemma RegisterOk(g: Reg, t: int, cbOnline: bool, cbOffline: bool)
    requires Ok(g) && (Accepted(g, t, cbOnline, cbOffline) ==> Clean(g, t))
    ensures Ok(Register(g, t, cbOnline, cbOffline).0)
  {
    var g' := Register(g, t, cbOnline, cbOffline).0;
    if g' != g {
      forall i | 0 <= i < |g.slots| ensures SlotOk(g', i) {
        assert SlotOk(g, i);
        if g.slots[i].card == t {
          PairedAppend(g.slots[i].calls, On(t));
          assert g'.slots[i] == RegisterSlot(g.slots[i], t, g.cbRet[i]);
        }
      }
    }
  }

  lemma UnregisterOk(g: Reg, t: int)
    requires Ok(g) && !NullCall(g, t)
    ensures Ok(Unregister(g, t))
  {
    var g' := Unregister(g, t);
    if g' != g {
      forall i | 0 <= i < |g.slots| ensures SlotOk(g', i) {
        assert SlotOk(g, i);
        if g.slots[i].card == t { PairedAppend(g.slots[i].calls, Off(t)); }
      }
    }
  }

  lemma OnlineOk(g: Reg, j: int, t: int)
    requires Ok(g)
    ensures Ok(Online(g, j, t).0)
  {
    var g' := Online(g, j, t).0;
    if g' != g {
      assert SlotOk(g, j);
      if g.types[t].cbOnline { PairedAppend(g.slots[j].calls, On(t)); }
      forall i | 0 <= i < |g.slots| ensures SlotOk(g', i) { assert SlotOk(g, i); }
    }
  }

  lemma OfflineOk(g: Reg, j: int)
    requires Ok(g)
    ensures Ok(Offline(g, j))
  {
    var g' := Offline(g, j);
    if g' != g {
      assert SlotOk(g, j);
      if g.types[g.slots[j].card].cbOffline { PairedAppend(g.slots[j].calls, Off(g.slots[j].card)); }
      forall i | 0 <= i < |g.slots| ensures SlotOk(g', i) { assert SlotOk(g, i); }
    }
  }

  lemma StepOk(g: Reg, e: DrvEvent)
    requires Ok(g) && DrvPossible(g, e)
    ensures Ok(DrvStep(g, e))
  {
    match e
    case RegisterEv(t, a, b) => RegisterOk(g, t, a, b);
    case UnregisterEv(t) => UnregisterOk(g, t);
    case OnlineEv(i, t) => OnlineOk(g, i, t);
    case OfflineEv(i) => OfflineOk(g, i);
    case _ =>
      var g' := DrvStep(g, e);
      forall i | 0 <= i < |g.slots| ensures SlotOk(g', i) { assert SlotOk(g, i); }
  }

  // Over every sequence of registrations, unregistrations, plug-ins and plug-outs.
  lemma {:induction false} RunOk(st: seq<Reg>, es: seq<DrvEvent>, n: nat)
    requires DrvBehavior(st, es) && DrvTrusted(st, es) && Ok(st[0]) && n < |st|
    ensures Ok(st[n]) && |st[n].slots| == |st[0].slots| && |st[n].types| == |st[0].types|
  {
    if n > 0 {
      RunOk(st, es, n - 1);
      assert DrvStepAt(st, es, n - 1) && DrvPossible(st[n - 1], es[n - 1]);
      StepOk(st[n - 1], es[n - 1]);
    }
  }

  // A registration whose callback fails on some slot still registers the type. Activity then
  // disagrees with registration, exactly in that case.
  lemma RegisterOkIff(g: Reg, t: int)
    requires Ok(g) && !TypeErr(g, t) && !Registered(g, t)
    ensures Ok(Register(g, t, true, true).0) <==> Clean(g, t)
  {
    var g' := Register(g, t, true, true).0;
    if Clean(g, t) {
      RegisterOk(g, t, true, true);
    } else {
      var i :| 0 <= i < |g.slots| && g.slots[i].card == t && g.cbRet[i] < 0;
      assert SlotOk(g, i);
      assert g'.slots[i] == RegisterSlot(g.slots[i], t, g.cbRet[i]) == g.slots[i];
      assert !SlotOk(g', i);
    }
  }

  // One type, one slot: the card comes first, then a driver whose callback fails.
  lemma RegisterFailureWitness() returns (g: Reg)
    ensures Ok(g) && !Ok(Register(g, 0, true, true).0)
  {
    g := Reg([TypeInfo(false, false)], [Slot(0, false, false, Masked, [])], [-1]);
    assert SlotOk(g, 0);
    assert !Clean(g, 0);
    RegisterOkIff(g, 0);
  }
}
