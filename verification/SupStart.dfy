// The start of the program. When it opens its device file, loading the driver module has registered the
// driver's own card type and brought the slot of the device file on line, and other drivers may have
// come and gone.

module SupStart {
  import opened Wrappers
  import opened Queues
  import opened Registry
  import opened RegistryProofs
  import opened SupModel
  import opened SupInv
  import opened SupRuns

  // dmd_init; own is the driver's own card type, self the slot of the device file.
  function ModuleInit(nTypes: nat, masks: seq<Mask>, own: nat, self: nat): (g: Reg)
    requires own < nTypes && self < |masks|
  {
    Online(Register(DrvInit(nTypes, masks), own, true, true).0, self, own).0
  }

  // Drivers come and go, but no card does.
  ghost predicate NoCards(es: seq<DrvEvent>) {
    forall k :: 0 <= k < |es| ==> !es[k].OnlineEv? && !es[k].OfflineEv?
  }

  // Neither call of dmd_init fails, and afterwards its own slot is the one on line.
  lemma ModuleInitOk(nTypes: nat, masks: seq<Mask>, own: nat, self: nat)
    requires own < nTypes && self < |masks|
    ensures var g := DrvInit(nTypes, masks);
            var (g1, ret1) := Register(g, own, true, true);
            ret1 >= 0 && Online(g1, self, own).1 >= 0
    ensures var g := ModuleInit(nTypes, masks, own, self);
            && Ok(g) && |g.slots| == |masks| && |g.types| == nTypes
            && forall i :: 0 <= i < |masks| ==> g.slots[i].card == if i == self then own else ETINDEV_NULL
  {
    var g := DrvInit(nTypes, masks);
    NoneCalled(g, own, |g.slots|);
    RegisterOk(g, own, true, true);
    OnlineOk(Register(g, own, true, true).0, self, own);
  }

  // Registering the type of no card makes no call.
  lemma {:induction false} NoneCalled(g: Reg, t: int, n: nat)
    requires n <= |g.slots| == |g.cbRet| && forall i :: 0 <= i < |g.slots| ==> g.slots[i].card != t
    ensures RegisterRet(g, t, n) == 0
  {
    if n > 0 { NoneCalled(g, t, n - 1); }
  }

  lemma {:induction false} CardsStay(st: seq<Reg>, es: seq<DrvEvent>, n: nat)
    requires DrvBehavior(st, es) && NoCards(es) && n < |st|
    ensures |st[n].slots| == |st[0].slots|
    ensures forall i :: 0 <= i < |st[0].slots| ==> st[n].slots[i].card == st[0].slots[i].card
  {
    if n > 0 {
      CardsStay(st, es, n - 1);
      assert DrvStepAt(st, es, n - 1) && !es[n - 1].OnlineEv? && !es[n - 1].OfflineEv?;
      DriverKeepsCards(st[n - 1], es[n - 1]);
    }
  }

  // The program starts with every invariant, in agreement with the driver about the slots it cares for,
  // and with its device's own slot on line, where no ioctl of its reaches it.
  lemma StartOk(nTypes: nat, masks: seq<Mask>, own: nat, self: nat, st: seq<Reg>, es: seq<DrvEvent>,
                nStatic: nat, needKill: bool, care: set<int>)
    requires own < nTypes && self < |masks| && self !in care && NoCards(es)
    requires DrvBehavior(st, es) && DrvTrusted(st, es) && st[0] == ModuleInit(nTypes, masks, own, self)
    ensures var g := st[|es|];
            && Ok(g) && |g.slots| == |masks| && g.slots[self].card == own
            && (forall t :: Ioctl(g, self, self, t) == (g, -EINVAL))
            && var s := Init(|masks|, nStatic, g, needKill, care, self); Inv(s) && Agrees(s)
  {
    ModuleInitOk(nTypes, masks, own, self);
    RunOk(st, es, |es|);
    CardsStay(st, es, |es|);
    InitOk(|masks|, nStatic, st[|es|], needKill, care, self);
  }
}
