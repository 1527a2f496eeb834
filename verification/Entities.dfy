// The entities of the supervisor in their own form: the operating system's side of the children,
// process records and their managers, updated in place and pointing at each other.

module Entities {
  import opened Wrappers
  import opened Queues
  import opened CList
  import opened Registry
  import opened SupModel
  import opened SupInv

  lemma NoElement(z: set<int>)
    requires !exists p :: p in z
    ensures z == {}
  {
    assert forall p :: p !in z;
  }

  // The operating system's side of the children.
  class Os {
    var alive: set<int>
    var zombies: set<int>
    ghost var signals: seq<(int, Signal)>

    constructor ()
      ensures alive == {} && zombies == {} && signals == []
    {
      alive, zombies, signals := {}, {}, [];
    }

    // fork, with the outcome the environment chooses
    method Fork(outcome: int) returns (pid: int)
      requires outcome > 0 ==> outcome !in alive + zombies
      modifies this
      ensures pid == outcome && zombies == old(zombies) && signals == old(signals)
      ensures alive == if outcome > 0 then old(alive) + {outcome} else old(alive)
    {
      pid := outcome;
      if outcome > 0 { alive := alive + {outcome}; }
    }

    // kill; only for children not yet reaped, whose pid cannot belong to anybody else
    method Kill(pid: int, ghost sig: Signal)
      requires pid in alive + zombies
      modifies this
      ensures alive == old(alive) && zombies == old(zombies) && signals == old(signals) + [(pid, sig)]
    {
      signals := signals + [(pid, sig)];
    }

    // waitpid(pid, WNOHANG): 0 for a live child, -1 and ECHILD for no child
    method WaitPid(pid: int) returns (ret: int, echild: bool)
      requires pid > 0
      modifies this
      ensures alive == old(alive) && signals == old(signals)
      ensures zombies == if pid in alive then old(zombies) else old(zombies) - {pid}
      ensures (ret == pid || (ret == -1 && echild)) <==> pid !in alive
    {
      echild := pid !in alive + zombies;
      ret := if pid in alive then 0 else if pid in zombies then pid else -1;
      if pid !in alive { zombies := zombies - {pid}; }
    }

    // waitpid(-1, WNOHANG): some zombie, or not a pid
    method WaitAny() returns (pid: int)
      requires forall p :: p in zombies ==> p > 0
      modifies this
      ensures alive == old(alive) && signals == old(signals)
      ensures if old(zombies) == {} then pid <= 0 && zombies == {}
              else pid in old(zombies) && zombies == old(zombies) - {pid}
    {
      if p :| p in zombies {
        pid := p;
        zombies := zombies - {p};
      } else {
        NoElement(zombies);
        pid := 0;
      }
    }
  }

  class RtPrcInfo {
    const idx: nat
    const link: CListHeader
    var state: PrcState
    var pid: int
    var nExpTimes: int
    var nRealTimes: int
    var parent: MngInfo?
    ghost var sent: seq<Signal>

    ghost predicate Is(v: Rec)
      reads this
    {
      v == Val()
    }

    ghost function Val(): Rec
      reads this
    {
      Rec(state, pid, nExpTimes, nRealTimes, if parent == null then None else Some(parent.idx), sent)
    }

    constructor (idx: nat, link: CListHeader)
      ensures this.idx == idx && this.link == link && Val() == FREE_REC && parent == null
    {
      this.idx, this.link := idx, link;
      state, pid, nExpTimes, nRealTimes, parent, sent := Null, -1, 0, 0, null, [];
    }

    method Start(os: Os, outcome: int) returns (ret: int)
      requires state == Null && pid == -1 && nExpTimes == 0 && nRealTimes == 0
      requires outcome != 0 && (outcome > 0 ==> outcome !in os.alive + os.zombies)
      modifies this, os
      ensures os.zombies == old(os.zombies)
      ensures os.alive == if outcome > 0 then old(os.alive) + {outcome} else old(os.alive)
      ensures if outcome < 0 then ret < 0 && Val() == old(Val()) && parent == old(parent)
              else && ret == 0 && parent == old(parent)
                   && Val() == old(Val()).(state := Normal, pid := outcome, sent := [])
    {
      var newPid := os.Fork(outcome);
      if newPid < 0 { return newPid; }
      state := Normal;
      pid := newPid;
      sent := [];
      ret := 0;
    }

    method Stop(os: Os) returns (ret: int)
      requires state in {Normal, Exiting, Killing} && pid > 0
      modifies this, os
      ensures os.alive == old(os.alive) && parent == old(parent)
      ensures old(pid) in os.alive ==> ret < 0 && Val() == old(Val()) && os.zombies == old(os.zombies)
      ensures old(pid) !in os.alive ==>
                && ret == 0 && os.zombies == old(os.zombies) - {old(pid)}
                && Val() == old(Val()).(state := Null, pid := -1, sent := [])
    {
      var retPid, echild := os.WaitPid(pid);
      if retPid != pid && !(retPid == -1 && echild) { return -1; }
      state := Null;
      pid := -1;
      sent := [];
      ret := 0;
    }

    method SignalKill(os: Os)
      requires state in {Normal, Exiting} && pid in os.alive + os.zombies
      modifies this, os
      ensures os.alive == old(os.alive) && os.zombies == old(os.zombies) && parent == old(parent)
      ensures os.signals == old(os.signals) + [(pid, SigKill)]
      ensures Val() == old(Val()).(state := Killing, sent := old(sent) + [SigKill])
    {
      os.Kill(pid, SigKill);
      state := Killing;
      sent := sent + [SigKill];
    }

    method SignalTerm(os: Os)
      requires state in {Normal, Exiting} && pid in os.alive + os.zombies
      modifies this, os
      ensures os.alive == old(os.alive) && os.zombies == old(os.zombies) && parent == old(parent)
      ensures os.signals == old(os.signals) + [(pid, SigTerm)]
      ensures Val() == old(Val()).(state := Exiting, sent := old(sent) + [SigTerm])
    {
      os.Kill(pid, SigTerm);
      state := Exiting;
      sent := sent + [SigTerm];
    }

    method ClrTimes()
      modifies this
      ensures parent == old(parent) && Val() == old(Val()).(nExp := 0, nReal := 0)
    {
      nExpTimes := 0;
      nRealTimes := 0;
    }

    method SendHello()
      requires state == Normal
      modifies this
      ensures parent == old(parent) && Val() == old(Val()).(nExp := old(nExpTimes) + 1)
    {
      nExpTimes := nExpTimes + 1;
    }

    method UpdateRealTimes()
      modifies this
      ensures parent == old(parent) && Val() == old(Val()).(nReal := old(nRealTimes) + 1)
    {
      nRealTimes := nRealTimes + 1;
    }

    predicate IsLive(diff: int)
      reads this
    {
      nExpTimes - nRealTimes < diff
    }
  }

  class MngInfo {
    const idx: nat
    const link: CListHeader
    var child: RtPrcInfo?
    var cardType: int
    var cardTypeNew: int
    var cnt4Filter: int
    ghost var seen: seq<int>
    ghost var io: seq<IoCall>

    ghost predicate Is(g: Mng)
      reads this
    {
      && g.child == (if child == null then None else Some(child.idx))
      && g.card == cardType && g.cardNew == cardTypeNew && g.cnt == cnt4Filter && g.seen == seen && g.io == io
    }

    constructor (idx: nat, link: CListHeader)
      ensures this.idx == idx && this.link == link && Is(FRESH_MNG) && child == null
    {
      this.idx, this.link := idx, link;
      child, cardType, cardTypeNew, cnt4Filter := null, ETINDEV_NULL, ETINDEV_NULL, 0;
      seen, io := [], [];
    }
  }

  method MakeRecs(links: seq<CListHeader>) returns (rs: seq<RtPrcInfo>)
    ensures |rs| == |links| && fresh(rs)
    ensures forall i {:trigger rs[i]} :: 0 <= i < |rs| ==>
              rs[i].idx == i && rs[i].link == links[i] && rs[i].Val() == FREE_REC && rs[i].parent == null
  {
    rs := [];
    while |rs| < |links|
      invariant |rs| <= |links| && fresh(rs)
      invariant forall i {:trigger rs[i]} :: 0 <= i < |rs| ==>
                  rs[i].idx == i && rs[i].link == links[i] && rs[i].Val() == FREE_REC && rs[i].parent == null
    {
      var r := new RtPrcInfo(|rs|, links[|rs|]);
      rs := rs + [r];
    }
  }

  method MakeMngs(links: seq<CListHeader>) returns (ms: seq<MngInfo>)
    ensures |ms| == |links| && fresh(ms)
    ensures forall i {:trigger ms[i]} :: 0 <= i < |ms| ==>
              ms[i].idx == i && ms[i].link == links[i] && ms[i].Is(FRESH_MNG) && ms[i].child == null
  {
    ms := [];
    while |ms| < |links|
      invariant |ms| <= |links| && fresh(ms)
      invariant forall i {:trigger ms[i]} :: 0 <= i < |ms| ==>
                  ms[i].idx == i && ms[i].link == links[i] && ms[i].Is(FRESH_MNG) && ms[i].child == null
    {
      var m := new MngInfo(|ms|, links[|ms|]);
      ms := ms + [m];
    }
  }

  // s_preAllPool, s_dynamicPrcList and s_staticPrcList, and the associations between their elements.
  class Tables {
    const recs: seq<RtPrcInfo>
    const mngs: seq<MngInfo>
    ghost const Repr: set<object>
    ghost var vRecs: seq<Rec>
    ghost var vMngs: seq<Mng>

    ghost predicate Wired() {
      && this in Repr
      && (forall i {:trigger recs[i]} :: 0 <= i < |recs| ==> recs[i].idx == i && recs[i] in Repr)
      && (forall m {:trigger mngs[m]} :: 0 <= m < |mngs| ==> mngs[m].idx == m && mngs[m] in Repr)
    }

    // The values of the objects; an association leads to an element of the other table.
    ghost predicate Valid()
      reads this, Repr
      ensures Valid() ==> this in Repr
    {
      && Wired() && |vRecs| == |recs| && |vMngs| == |mngs|
      && (forall i {:trigger recs[i]} :: 0 <= i < |recs| ==>
            recs[i].Is(vRecs[i]) && (recs[i].parent != null ==> recs[i].parent in mngs))
      && (forall m {:trigger mngs[m]} :: 0 <= m < |mngs| ==>
            mngs[m].Is(vMngs[m]) && (mngs[m].child != null ==> mngs[m].child in recs))
    }

    constructor (rLinks: seq<CListHeader>, mLinks: seq<CListHeader>)
      ensures Valid() && fresh(Repr) && |recs| == |rLinks| && |mngs| == |mLinks|
      ensures forall i {:trigger recs[i]} :: 0 <= i < |recs| ==> recs[i].link == rLinks[i]
      ensures forall m {:trigger mngs[m]} :: 0 <= m < |mngs| ==> mngs[m].link == mLinks[m]
      ensures vRecs == seq(|rLinks|, _ => FREE_REC) && vMngs == seq(|mLinks|, _ => FRESH_MNG)
    {
      var rs := MakeRecs(rLinks);
      var ms := MakeMngs(mLinks);
      recs, mngs := rs, ms;
      Repr := {this} + (set r: object | r in rs) + (set m: object | m in ms);
      vRecs, vMngs := seq(|rLinks|, _ => FREE_REC), seq(|mLinks|, _ => FRESH_MNG);
    }

    // signalTerm
    method SignalTerm(rhs: RtPrcInfo, os: Os)
      requires Valid() && rhs in recs && os !in Repr
      requires rhs.state in {Normal, Exiting} && rhs.pid in os.alive + os.zombies
      modifies Repr, os
      ensures Valid() && vMngs == old(vMngs)
      ensures os.alive == old(os.alive) && os.zombies == old(os.zombies)
      ensures os.signals == old(os.signals) + [(old(rhs.pid), SigTerm)]
      ensures var v := old(vRecs[rhs.idx]);
              vRecs == old(vRecs)[rhs.idx := v.(state := Exiting, sent := v.sent + [SigTerm])]
    {
      rhs.SignalTerm(os);
      vRecs := vRecs[rhs.idx := vRecs[rhs.idx].(state := Exiting, sent := vRecs[rhs.idx].sent + [SigTerm])];
    }

    // signalKill
    method SignalKill(rhs: RtPrcInfo, os: Os)
      requires Valid() && rhs in recs && os !in Repr
      requires rhs.state in {Normal, Exiting} && rhs.pid in os.alive + os.zombies
      modifies Repr, os
      ensures Valid() && vMngs == old(vMngs)
      ensures os.alive == old(os.alive) && os.zombies == old(os.zombies)
      ensures os.signals == old(os.signals) + [(old(rhs.pid), SigKill)]
      ensures var v := old(vRecs[rhs.idx]);
              vRecs == old(vRecs)[rhs.idx := v.(state := Killing, sent := v.sent + [SigKill])]
    {
      rhs.SignalKill(os);
      vRecs := vRecs[rhs.idx := vRecs[rhs.idx].(state := Killing, sent := vRecs[rhs.idx].sent + [SigKill])];
    }

    // clrTimes
    method ClrTimes(rhs: RtPrcInfo)
      requires Valid() && rhs in recs
      modifies Repr
      ensures Valid() && vMngs == old(vMngs)
      ensures vRecs == old(vRecs)[rhs.idx := old(vRecs[rhs.idx]).(nExp := 0, nReal := 0)]
    {
      rhs.ClrTimes();
      vRecs := vRecs[rhs.idx := vRecs[rhs.idx].(nExp := 0, nReal := 0)];
    }

    // sendHello
    method SendHello(rhs: RtPrcInfo)
      requires Valid() && rhs in recs
      requires rhs.state == Normal
      modifies Repr
      ensures Valid() && vMngs == old(vMngs)
      ensures vRecs == old(vRecs)[rhs.idx := old(vRecs[rhs.idx]).(nExp := old(vRecs[rhs.idx]).nExp + 1)]
    {
      rhs.SendHello();
      vRecs := vRecs[rhs.idx := vRecs[rhs.idx].(nExp := vRecs[rhs.idx].nExp + 1)];
    }

    // updateRealTimes
    method UpdateRealTimes(rhs: RtPrcInfo)
      requires Valid() && rhs in recs
      modifies Repr
      ensures Valid() && vMngs == old(vMngs)
      ensures vRecs == old(vRecs)[rhs.idx := old(vRecs[rhs.idx]).(nReal := old(vRecs[rhs.idx]).nReal + 1)]
    {
      rhs.UpdateRealTimes();
      vRecs := vRecs[rhs.idx := vRecs[rhs.idx].(nReal := vRecs[rhs.idx].nReal + 1)];
    }

    // CRtPrcInfo::start
    method StartRec(rhs: RtPrcInfo, os: Os, outcome: int) returns (ret: int)
      requires Valid() && rhs in recs && os !in Repr
      requires rhs.state == Null && rhs.pid == -1 && rhs.nExpTimes == 0 && rhs.nRealTimes == 0
      requires outcome != 0 && (outcome > 0 ==> outcome !in os.alive + os.zombies)
      modifies Repr, os
      ensures Valid() && vMngs == old(vMngs) && os.zombies == old(os.zombies)
      ensures os.alive == if outcome > 0 then old(os.alive) + {outcome} else old(os.alive)
      ensures if outcome < 0 then ret < 0 && vRecs == old(vRecs)
              else && ret == 0
                   && vRecs == old(vRecs)[rhs.idx := old(vRecs[rhs.idx]).(state := Normal, pid := outcome, sent := [])]
    {
      ret := rhs.Start(os, outcome);
      if ret == 0 {
        vRecs := vRecs[rhs.idx := vRecs[rhs.idx].(state := Normal, pid := outcome, sent := [])];
      }
    }

    // CRtPrcInfo::stop
    method StopRec(rhs: RtPrcInfo, os: Os) returns (ret: int)
      requires Valid() && rhs in recs && os !in Repr && rhs.state != Null && rhs.pid > 0
      modifies Repr, os
      ensures Valid() && vMngs == old(vMngs) && os.alive == old(os.alive)
      ensures if old(rhs.pid) in os.alive then ret < 0 && vRecs == old(vRecs) && os.zombies == old(os.zombies)
              else ret == 0 && os.zombies == old(os.zombies) - {old(rhs.pid)} &&
                   vRecs == old(vRecs)[rhs.idx := old(vRecs[rhs.idx]).(state := Null, pid := -1, sent := [])]
    {
      ret := rhs.Stop(os);
      if ret == 0 {
        vRecs := vRecs[rhs.idx := vRecs[rhs.idx].(state := Null, pid := -1, sent := [])];
      }
    }

    // buildBdAss
    method BuildBdAss(parent: MngInfo, child: RtPrcInfo)
      requires Valid() && parent in mngs && child in recs && parent.child == null && child.parent == null
      modifies Repr
      ensures Valid()
      ensures vMngs == old(vMngs)[parent.idx := old(vMngs[parent.idx]).(child := Some(child.idx))]
      ensures vRecs == old(vRecs)[child.idx := old(vRecs[child.idx]).(parent := Some(parent.idx))]
    {
      parent.child := child;
      child.parent := parent;
      vMngs := vMngs[parent.idx := vMngs[parent.idx].(child := Some(child.idx))];
      vRecs := vRecs[child.idx := vRecs[child.idx].(parent := Some(parent.idx))];
    }

    // destroyBdAss
    method DestroyBdAss(parent: MngInfo, child: RtPrcInfo)
      requires Valid() && parent in mngs && child in recs && parent.child != null && child.parent != null
      modifies Repr
      ensures Valid()
      ensures vMngs == old(vMngs)[parent.idx := old(vMngs[parent.idx]).(child := None)]
      ensures vRecs == old(vRecs)[child.idx := old(vRecs[child.idx]).(parent := None)]
    {
      parent.child := null;
      child.parent := null;
      vMngs := vMngs[parent.idx := vMngs[parent.idx].(child := None)];
      vRecs := vRecs[child.idx := vRecs[child.idx].(parent := None)];
    }

    // The card fields of a dynamic manager; seen' is the record of reports from now on.
    method SetCards(mng: MngInfo, card: int, cardNew: int, cnt: int, ghost seen': seq<int>)
      requires Valid() && mng in mngs
      modifies Repr
      ensures Valid() && vRecs == old(vRecs)
      ensures var v := old(vMngs[mng.idx]);
              vMngs == old(vMngs)[mng.idx := v.(card := card, cardNew := cardNew, cnt := cnt, seen := seen')]
    {
      mng.cardType, mng.cardTypeNew, mng.cnt4Filter, mng.seen := card, cardNew, cnt, seen';
      vMngs := vMngs[mng.idx := vMngs[mng.idx].(card := card, cardNew := cardNew, cnt := cnt, seen := seen')];
    }

    ghost method LogIo(mng: MngInfo, call: IoCall)
      requires Valid() && mng in mngs
      modifies Repr
      ensures Valid() && vRecs == old(vRecs)
      ensures vMngs == old(vMngs)[mng.idx := old(vMngs[mng.idx]).(io := old(vMngs[mng.idx]).io + [call])]
    {
      mng.io := mng.io + [call];
      vMngs := vMngs[mng.idx := vMngs[mng.idx].(io := vMngs[mng.idx].io + [call])];
    }
  }
}
