// Card reports: debouncing, plug-in and plug-out.

module SupCards {
  import opened Wrappers
  import opened Queues
  import opened Registry
  import opened SupModel
  import opened SupInv
  import opened SupSteps

  // A report is passed on to handleNewType.
  ghost predicate Reportable(s: Sup, d: int, t: int) {
    !SlotErr(s.drv, d) && ETINDEV_NULL <= t < |s.drv.types| && d in s.care
  }

  // ---------- the branches of handleNewType ----------

  function Uncarded(s: Sup, d: nat): (s': Sup)
    requires Fits(s) && Dynamic(s, d)
    ensures Fits(s') && SameConfig(s, s')
  {
    SetMng(s, d, s.mngs[d].(card := ETINDEV_NULL, cardNew := ETINDEV_NULL, seen := []))
  }

  function Carded(s: Sup, d: nat, t: int): (s': Sup)
    requires Fits(s) && Dynamic(s, d)
    ensures Fits(s') && SameConfig(s, s')
  {
    SetMng(s, d, s.mngs[d].(card := t, cardNew := ETINDEV_NULL, cnt := 0, seen := s.mngs[d].seen + [t]))
  }

  // A report that is only counted.
  function CountReport(g: Mng, t: int): Mng {
    if t != g.cardNew then g.(cardNew := t, cnt := 0, seen := g.seen + [t])
    else g.(cnt := g.cnt + 1, seen := g.seen + [t])
  }

  // A report that leads to no more than counting.
  predicate OnlyCounts(g: Mng, t: int) { t != g.cardNew || g.cnt + 1 < ONLINE_FILTER_COUNT || g.child.Some? }

  lemma CardGoneCases(s: Sup, d: nat)
    requires Fits(s) && Dynamic(s, d)
    ensures var s1, o := Uncarded(s, d), s.mngs[d].child;
            CardGone(s, d) == if o.None? then OnOffLine(DelFrom2Start(s1, d), d, ETINDEV_NULL).0
                              else if s.recs[o.value].state == Normal then Term(s1, o.value)
                              else s1
  {
  }

  lemma FilterCardCases(s: Sup, d: nat, t: int)
    requires Fits(s) && Dynamic(s, d)
    ensures FilterCard(s, d, t) == if OnlyCounts(s.mngs[d], t) then SetMng(s, d, CountReport(s.mngs[d], t))
                                   else AddIn2Start(OnOffLine(Carded(s, d, t), d, t).0, d)
  {
  }

  lemma NewTypeCases(s: Sup, d: nat, t: int)
    requires Fits(s) && Dynamic(s, d)
    ensures HandleNewType(s, d, t) == if t == s.mngs[d].card then SetMng(s, d, SeenAgain(s.mngs[d], t))
                                      else if s.mngs[d].card != ETINDEV_NULL then CardGone(s, d)
                                      else FilterCard(s, d, t)
  {
  }

  lemma ReportCases(s: Sup, d: int, t: int)
    requires Fits(s)
    ensures HandleCardChange(s, d, t) == if !Reportable(s, d, t) then s
                                         else if t == s.mngs[d].card then SetMng(s, d, SeenAgain(s.mngs[d], t))
                                         else if s.mngs[d].card != ETINDEV_NULL then CardGone(s, d)
                                         else FilterCard(s, d, t)
  {
    if Reportable(s, d, t) { NewTypeCases(s, d, t); }
  }

  // Step 1 of handleNewType
  function SeenAgain(g: Mng, t: int): Mng { g.(cardNew := ETINDEV_NULL, seen := g.seen + [t]) }

  // ---------- when a report faults ----------

  // A manager with a card that is neither attached nor queued.
  ghost predicate Dropped(s: Sup, d: int) {
    && 0 <= d < |s.mngs| && d < |s.drv.slots|
    && s.mngs[d].card != ETINDEV_NULL && s.mngs[d].child.None? && d !in s.queue
  }

  // A report that makes the program take a manager off a queue it is not in.
  ghost predicate Faults(s: Sup, d: int, t: int) {
    Reportable(s, d, t) && Dropped(s, d) && t != s.mngs[d].card
  }

  lemma ReportFaultsIff(s: Sup, d: int, t: int)
    requires Fits(s)
    ensures HandleCardChange(s, d, t).faulted <==> s.faulted || Faults(s, d, t)
  {
    ReportCases(s, d, t);
    if Reportable(s, d, t) {
      if s.mngs[d].card != ETINDEV_NULL { CardGoneFaultsIff(s, d); } else { FilterCardNeverFaults(s, d, t); }
    }
  }

  lemma CardGoneFaultsIff(s: Sup, d: nat)
    requires Fits(s) && Dynamic(s, d)
    ensures CardGone(s, d).faulted <==> s.faulted || (s.mngs[d].child.None? && d !in s.queue)
  {
    CardGoneCases(s, d);
    if s.mngs[d].child.None? { OnOffLineFrame(DelFrom2Start(Uncarded(s, d), d), d, ETINDEV_NULL); }
  }

  lemma FilterCardNeverFaults(s: Sup, d: nat, t: int)
    requires Fits(s) && Dynamic(s, d)
    ensures FilterCard(s, d, t).faulted == s.faulted
  {
    FilterCardCases(s, d, t);
    if !OnlyCounts(s.mngs[d], t) { OnOffLineFrame(Carded(s, d, t), d, t); }
  }

  // ---------- what a report keeps ----------

  lemma RunLenAppend(xs: seq<int>, t: int)
    ensures RunLen(xs + [t]) == if xs != [] && xs[|xs| - 1] == t then RunLen(xs) + 1 else 1
  {
    var ys := xs + [t];
    if xs != [] { assert ys[..|ys| - 1] == xs && ys[|ys| - 2] == xs[|xs| - 1]; }
  }

  // Only manager d changes, and none of its links.
  lemma OwnFieldsKeep(s: Sup, d: nat, g: Mng)
    requires Core(s) && d < |s.mngs| && g.child == s.mngs[d].child && g.io == s.mngs[d].io
    requires MngBasic(SetMng(s, d, g), d)
    ensures Core(SetMng(s, d, g))
    ensures Agrees(s) && MngDriver(SetMng(s, d, g), d) ==> Agrees(SetMng(s, d, g))
  {
    var s' := SetMng(s, d, g);
    SameRecs(s, s');
    forall m | 0 <= m < |s.mngs| && m != d ensures SameFor(s, s', m) {}
    Frame(s, s', d);
  }

  lemma SeenKeeps(s: Sup, d: nat, t: int)
    requires Core(s) && Dynamic(s, d) && Reportable(s, d, t) && t == s.mngs[d].card
    ensures Core(HandleNewType(s, d, t)) && (Agrees(s) ==> Agrees(HandleNewType(s, d, t)))
  {
    assert MngBasic(s, d) && (Agrees(s) ==> MngDriver(s, d));
    OwnFieldsKeep(s, d, HandleNewType(s, d, t).mngs[d]);
  }

  ghost predicate Kept(s: Sup, s': Sup)
    requires Fits(s) && Fits(s')
  {
    Core(s') && (Agrees(s) ==> Agrees(s')) && Pids(s'.recs) == Pids(s.recs)
  }

  lemma CardGoneKeeps(s: Sup, d: nat)
    requires Core(s) && Dynamic(s, d) && s.mngs[d].card != ETINDEV_NULL
    ensures Kept(s, CardGone(s, d))
  {
    CardGoneCases(s, d);
    if s.mngs[d].child.None? {
      WaitingCardGoneKeeps(s, d);
    } else if s.recs[s.mngs[d].child.value].state == Normal {
      RunningCardGoneKeeps(s, d);
    } else {
      DyingCardGoneKeeps(s, d);
    }
  }

  lemma DyingCardGoneKeeps(s: Sup, d: nat)
    requires Core(s) && Dynamic(s, d) && s.mngs[d].card != ETINDEV_NULL && s.mngs[d].child.Some?
    requires s.recs[s.mngs[d].child.value].state != Normal
    ensures Fits(Uncarded(s, d)) && Kept(s, Uncarded(s, d))
  {
    assert MngBasic(s, d) && (Agrees(s) ==> MngDriver(s, d));
    assert MngBasic(Uncarded(s, d), d);
    OwnFieldsKeep(s, d, Uncarded(s, d).mngs[d]);
  }

  lemma WaitingCardGoneKeeps(s: Sup, d: nat)
    requires Core(s) && Dynamic(s, d) && s.mngs[d].card != ETINDEV_NULL && s.mngs[d].child.None?
    ensures Kept(s, OnOffLine(DelFrom2Start(Uncarded(s, d), d), d, ETINDEV_NULL).0)
  {
    var s2 := DelFrom2Start(Uncarded(s, d), d);
    var s' := OnOffLine(s2, d, ETINDEV_NULL).0;
    assert MngBasic(s, d) && (Agrees(s) ==> MngDriver(s, d));
    DelMembers(s.queue, d);
    OnOffLineFrame(s2, d, ETINDEV_NULL);
    SameRecs(s, s');
    if Agrees(s) { AlternateAppend(s.mngs[d].io, IoCall(ETINDEV_NULL, s.drv.slots[d].card)); }
    forall m | 0 <= m < |s.mngs| && m != d ensures SameFor(s, s', m) {}
    Frame(s, s', d);
  }

  // The record of a running process of a slot, after its card left.
  lemma RunningCardGoneRecs(s: Sup, d: nat, r: nat)
    requires Fits(s) && RecsOk(s) && Dynamic(s, d) && s.mngs[d].child == Some(r) && s.recs[r].state == Normal
    ensures var s' := Term(Uncarded(s, d), r); RecsOk(s') && Pids(s'.recs) == Pids(s.recs)
  {
    var s1 := Uncarded(s, d);
    SameRecs(s, s1);
    TermFacts(s1, r);
    assert RecOk(s, r);
    AdvanceRecs(s1, Term(s1, r), r);
  }

  lemma RunningCardGoneKeeps(s: Sup, d: nat)
    requires Core(s) && Dynamic(s, d) && s.mngs[d].card != ETINDEV_NULL && s.mngs[d].child.Some?
    requires s.recs[s.mngs[d].child.value].state == Normal
    ensures Kept(s, Term(Uncarded(s, d), s.mngs[d].child.value))
  {
    var r := s.mngs[d].child.value;
    RunningCardGoneRecs(s, d, r);
    TermFacts(Uncarded(s, d), r);
    TermedKept(s, Term(Uncarded(s, d), r), d, r);
  }

  lemma TermedKept(s: Sup, s': Sup, d: nat, r: nat)
    requires Core(s) && Dynamic(s, d) && s.mngs[d].card != ETINDEV_NULL && s.mngs[d].child == Some(r)
    requires s.recs[r].state == Normal
    requires s' == s.(mngs := s.mngs[d := s.mngs[d].(card := ETINDEV_NULL, cardNew := ETINDEV_NULL, seen := [])],
                      recs := s.recs[r := Termed(s.recs[r])], lists := Accept(s.lists, EXITING, r),
                      termTimer := s.termTimer || s.lists[EXITING] == [])
    requires Fits(s') && RecsOk(s') && Pids(s'.recs) == Pids(s.recs)
    ensures Kept(s, s')
  {
    assert MngBasic(s, d) && (Agrees(s) ==> MngDriver(s, d)) && LinkOk(s, d);
    AcceptEmpty(s.lists, EXITING, KILLING, r);
    OthersSame(s, s', d, r);
    TermedManager(s, s', d, r);
    Frame(s, s', d);
  }

  lemma TermedManager(s: Sup, s': Sup, d: nat, r: nat)
    requires Fits(s) && Fits(s') && SameConfig(s, s') && Dynamic(s, d) && MngBasic(s, d)
    requires s.mngs[d].child == Some(r) && s.mngs[d].card != ETINDEV_NULL && s.recs[r].state == Normal
    requires s'.recs[r].state == Exiting && s'.queue == s.queue && s'.drv == s.drv
    requires s'.mngs[d] == s.mngs[d].(card := ETINDEV_NULL, cardNew := ETINDEV_NULL, seen := [])
    ensures MngBasic(s', d) && (MngDriver(s, d) ==> MngDriver(s', d))
  {
  }

  lemma TermFacts(s: Sup, r: nat)
    requires Fits(s) && r < |s.recs|
    ensures Term(s, r) == s.(recs := s.recs[r := Termed(s.recs[r])], lists := Accept(s.lists, EXITING, r),
                             termTimer := s.termTimer || s.lists[EXITING] == [])
  {
  }

  lemma AcceptCardKeeps(s: Sup, d: nat, t: int)
    requires Core(s) && Dynamic(s, d) && Reportable(s, d, t) && t != ETINDEV_NULL
    requires s.mngs[d].card == ETINDEV_NULL && s.mngs[d].child.None?
    ensures var s' := AcceptCard(s, d, t);
            && Core(s') && s'.recs == s.recs
            && (Agrees(s) ==> (Agrees(s') <==> OnlineSucceeds(s, d, t)))
  {
    var s1, s' := Carded(s, d, t), AcceptCard(s, d, t);
    assert s' == AddIn2Start(OnOffLine(s1, d, t).0, d);
    assert MngBasic(s, d) && (Agrees(s) ==> MngDriver(s, d));
    OnOffLineFrame(s1, d, t);
    SameRecs(s, s');
    forall m | 0 <= m < |s.mngs| && m != d ensures SameFor(s, s', m) {}
    if Agrees(s) { AcceptedAgreesIff(s, d, t); }
    Frame(s, s', d);
  }

  lemma AcceptedAgreesIff(s: Sup, d: nat, t: int)
    requires Fits(s) && Dynamic(s, d) && Reportable(s, d, t) && t != ETINDEV_NULL && s.self !in s.care
    requires s.mngs[d].card == ETINDEV_NULL && s.mngs[d].child.None? && MngDriver(s, d)
    ensures MngDriver(AcceptCard(s, d, t), d) <==> OnlineSucceeds(s, d, t)
  {
    OnOffLineFrame(Carded(s, d, t), d, t);
    AlternateAppend(s.mngs[d].io, IoCall(t, ETINDEV_NULL));
  }

  lemma CountedManager(s: Sup, s': Sup, d: nat, t: int)
    requires Fits(s) && Dynamic(s, d) && t != ETINDEV_NULL && s.mngs[d].card == ETINDEV_NULL
    requires Fits(s') && s' == s.(mngs := s.mngs[d := CountReport(s.mngs[d], t)])
    requires MngBasic(s, d)
    ensures MngBasic(s', d) && (MngDriver(s, d) ==> MngDriver(s', d))
  {
  }

  lemma CountedKeeps(s: Sup, d: nat, t: int)
    requires Core(s) && Dynamic(s, d) && Reportable(s, d, t) && t != ETINDEV_NULL && s.mngs[d].card == ETINDEV_NULL
    ensures var s' := SetMng(s, d, CountReport(s.mngs[d], t)); Core(s') && (Agrees(s) ==> Agrees(s'))
  {
    var g' := CountReport(s.mngs[d], t);
    assert MngBasic(s, d) && (Agrees(s) ==> MngDriver(s, d));
    CountedManager(s, SetMng(s, d, g'), d, t);
    OwnFieldsKeep(s, d, g');
  }

  lemma FilterCardKeeps(s: Sup, d: nat, t: int)
    requires Core(s) && Dynamic(s, d) && Reportable(s, d, t) && t != ETINDEV_NULL && s.mngs[d].card == ETINDEV_NULL
    ensures var s' := FilterCard(s, d, t);
            && Core(s') && (Agrees(s) && CallbacksOk(s) ==> Agrees(s')) && s'.recs == s.recs
  {
    FilterCardCases(s, d, t);
    if OnlyCounts(s.mngs[d], t) {
      CountedKeeps(s, d, t);
    } else {
      AcceptCardKeeps(s, d, t);
    }
  }

  lemma CardChangeKeeps(s: Sup, d: int, t: int)
    requires Core(s)
    ensures var s' := HandleCardChange(s, d, t);
            && Core(s') && (Agrees(s) && CallbacksOk(s) ==> Agrees(s')) && Pids(s'.recs) == Pids(s.recs)
            && (Agrees(s) ==> s'.faulted == s.faulted)
  {
    ReportFaultsIff(s, d, t);
    if Reportable(s, d, t) {
      assert Agrees(s) ==> MngDriver(s, d);
      if t == s.mngs[d].card { SeenKeeps(s, d, t); }
      else if s.mngs[d].card != ETINDEV_NULL { CardGoneKeeps(s, d); }
      else { FilterCardKeeps(s, d, t); }
    }
  }

  // The states st a poll of the slots passes through, one report after the other.
  ghost predicate Polling(st: seq<Sup>, cards: seq<int>) {
    && |st| == |cards| + 1
    && (forall k {:trigger Fits(st[k])} :: 0 <= k < |st| ==> Fits(st[k]))
    && (forall k {:trigger PollsAt(st, cards, k)} :: 0 <= k < |cards| ==> PollsAt(st, cards, k))
  }

  ghost predicate PollsAt(st: seq<Sup>, cards: seq<int>, k: nat)
    requires k < |cards| && k + 1 < |st|
  {
    Fits(st[k]) && st[k + 1] == HandleCardChange(st[k], k, cards[k])
  }

  lemma PollNext(s: Sup, cards: seq<int>, n: nat)
    requires Fits(s) && n < |cards|
    ensures CheckDevChange(s, cards, n + 1) == HandleCardChange(CheckDevChange(s, cards, n), n, cards[n])
  {
  }

  lemma PollStates(s: Sup, cards: seq<int>) returns (st: seq<Sup>)
    requires Fits(s)
    ensures Polling(st, cards) && st[0] == s
    ensures forall n :: 0 <= n <= |cards| ==> st[n] == CheckDevChange(s, cards, n)
  {
    st := seq(|cards| + 1, n requires 0 <= n <= |cards| => CheckDevChange(s, cards, n));
    forall k | 0 <= k < |cards| ensures PollsAt(st, cards, k) { PollNext(s, cards, k); }
  }

  lemma PollStepKeeps(st: seq<Sup>, cards: seq<int>, k: nat)
    requires Polling(st, cards) && k < |cards| && Core(st[k])
    ensures Core(st[k + 1]) && SameConfig(st[k], st[k + 1]) && SameEnv(st[k], st[k + 1])
    ensures Pids(st[k + 1].recs) == Pids(st[k].recs)
    ensures Agrees(st[k]) && CallbacksOk(st[k]) ==>
              Agrees(st[k + 1]) && CallbacksOk(st[k + 1]) && st[k + 1].faulted == st[k].faulted
  {
    assert PollsAt(st, cards, k);
    CardChangeKeeps(st[k], k, cards[k]);
  }

  // A poll of all slots.
  lemma {:induction false} PollKeeps(st: seq<Sup>, cards: seq<int>, n: nat)
    requires Polling(st, cards) && Core(st[0]) && n < |st|
    ensures Core(st[n]) && SameConfig(st[0], st[n]) && SameEnv(st[0], st[n]) && Pids(st[n].recs) == Pids(st[0].recs)
    ensures Agrees(st[0]) && CallbacksOk(st[0]) ==>
              Agrees(st[n]) && CallbacksOk(st[n]) && st[n].faulted == st[0].faulted
  {
    if n > 0 {
      PollKeeps(st, cards, n - 1);
      PollStepKeeps(st, cards, n - 1);
    }
  }

  lemma CheckDevChangeKeeps(s: Sup, cards: seq<int>, n: nat)
    requires Core(s) && n <= |cards|
    ensures var s' := CheckDevChange(s, cards, n);
            && Core(s') && Pids(s'.recs) == Pids(s.recs)
            && (Agrees(s) && CallbacksOk(s) ==> Agrees(s') && s'.faulted == s.faulted)
  {
    var st := PollStates(s, cards);
    PollKeeps(st, cards, n);
  }

  // ---------- what a report can do at all ----------

  // Only manager d changes; it may join the queue, leave it for want of a card, or have its Normal
  // process terminated.
  ghost predicate Localised(s: Sup, s': Sup, d: nat)
    requires Fits(s) && Fits(s') && SameConfig(s, s') && Dynamic(s, d)
  {
    OnlyManager(s, s', d) && (Queued(s, s', d) || Unqueued(s, s', d) || Terminated(s, s', d))
  }

  ghost predicate OnlyManager(s: Sup, s': Sup, d: nat)
    requires |s'.mngs| == |s.mngs| && d < |s.mngs|
  {
    (forall m :: 0 <= m < |s.mngs| && m != d ==> s'.mngs[m] == s.mngs[m]) && s'.mngs[d].child == s.mngs[d].child
  }

  ghost predicate Queued(s: Sup, s': Sup, d: nat) {
    s'.recs == s.recs && s'.lists == s.lists && (s'.queue == s.queue || s'.queue == s.queue + [d])
  }

  ghost predicate Unqueued(s: Sup, s': Sup, d: nat)
    requires d < |s'.mngs|
  {
    s'.recs == s.recs && s'.lists == s.lists && s'.queue == Del(s.queue, d) && s'.mngs[d].card == ETINDEV_NULL
  }

  ghost predicate Terminated(s: Sup, s': Sup, d: nat)
    requires Fits(s) && d < |s.mngs|
  {
    && s.mngs[d].child.Some? && s.recs[s.mngs[d].child.value].state == Normal
    && var r := s.mngs[d].child.value;
    && s'.queue == s.queue && s'.lists == Accept(s.lists, EXITING, r)
    && s'.recs == s.recs[r := Termed(s.recs[r])]
  }

  function Termed(v: Rec): Rec { v.(state := Exiting, nExp := 0, nReal := 0, sent := v.sent + [SigTerm]) }

  lemma CardGoneLocalised(s: Sup, d: nat)
    requires Fits(s) && Dynamic(s, d)
    ensures Localised(s, CardGone(s, d), d)
  {
    var g, s1 := s.mngs[d], Uncarded(s, d);
    if g.child.None? {
      CardGoneWaiting(s, d);
    } else if s.recs[g.child.value].state == Normal {
      assert CardGone(s, d) == Term(s1, g.child.value);
      assert Terminated(s, Term(s1, g.child.value), d);
    } else {
      assert CardGone(s, d) == s1;
      assert Queued(s, s1, d);
    }
  }

  lemma CardGoneWaiting(s: Sup, d: nat)
    requires Fits(s) && Dynamic(s, d) && s.mngs[d].child.None?
    ensures Localised(s, CardGone(s, d), d)
  {
  }

  lemma FilterCardLocalised(s: Sup, d: nat, t: int)
    requires Fits(s) && Dynamic(s, d)
    ensures Localised(s, FilterCard(s, d, t), d)
  {
    FilterCardCases(s, d, t);
    if OnlyCounts(s.mngs[d], t) {
      assert Queued(s, SetMng(s, d, CountReport(s.mngs[d], t)), d);
    } else {
      AcceptCardLocalised(s, d, t);
    }
  }

  lemma AcceptCardLocalised(s: Sup, d: nat, t: int)
    requires Fits(s) && Dynamic(s, d)
    ensures Localised(s, AddIn2Start(OnOffLine(Carded(s, d, t), d, t).0, d), d)
  {
    OnOffLineFrame(Carded(s, d, t), d, t);
    assert Queued(s, AddIn2Start(OnOffLine(Carded(s, d, t), d, t).0, d), d);
  }

  lemma HandleNewTypeLocalised(s: Sup, d: nat, t: int)
    requires Fits(s) && Dynamic(s, d)
    ensures Localised(s, HandleNewType(s, d, t), d)
  {
    if t == s.mngs[d].card {
      assert Queued(s, HandleNewType(s, d, t), d);
    } else if s.mngs[d].card != ETINDEV_NULL {
      CardGoneLocalised(s, d);
    } else {
      FilterCardLocalised(s, d, t);
    }
  }

  lemma CardChangeLocalised(s: Sup, d: int, t: int)
    requires Fits(s)
    ensures HandleCardChange(s, d, t) == s || (d >= 0 && Dynamic(s, d) && Localised(s, HandleCardChange(s, d, t), d))
  {
    if d >= 0 && Dynamic(s, d) { HandleNewTypeLocalised(s, d, t); }
  }

  // ---------- debouncing ----------

  // The last n reports were all t.
  ghost predicate LastAll(xs: seq<int>, n: nat, t: int) {
    n <= |xs| && forall k :: |xs| - n <= k < |xs| ==> xs[k] == t
  }

  lemma {:induction false} RunLenMeaning(xs: seq<int>, n: nat)
    requires xs != [] && n > 0
    ensures RunLen(xs) >= n <==> LastAll(xs, n, xs[|xs| - 1])
  {
    if n > 1 && |xs| > 1 && xs[|xs| - 1] == xs[|xs| - 2] {
      RunLenMeaning(xs[..|xs| - 1], n - 1);
      var ys, t := xs[..|xs| - 1], xs[|xs| - 1];
      assert LastAll(ys, n - 1, t) ==> LastAll(xs, n, t);
      assert LastAll(xs, n, t) ==> LastAll(ys, n - 1, t);
    }
  }

  // A slot without a card gets card t on a report exactly if no process is attached and this is at
  // least the fourth report of t in a row since the last card left. No other report changes that.
  lemma Debounce(s: Sup, d: nat, t: int)
    requires Core(s) && Dynamic(s, d) && Reportable(s, d, t) && s.mngs[d].card == ETINDEV_NULL
    ensures var g, g' := s.mngs[d], HandleCardChange(s, d, t).mngs[d];
            && g'.seen == g.seen + [t]
            && var accepted := t != ETINDEV_NULL && g.child.None? && LastAll(g.seen + [t], 4, t);
            && g'.card == (if accepted then t else ETINDEV_NULL)
  {
    assert MngBasic(s, d);
    ReportCases(s, d, t);
    if t != ETINDEV_NULL { FilterDebounces(s, d, t); }
  }

  lemma FilterDebounces(s: Sup, d: nat, t: int)
    requires Fits(s) && Dynamic(s, d) && FilterOk(s.mngs[d]) && s.mngs[d].card == ETINDEV_NULL && t != ETINDEV_NULL
    ensures var g, g' := s.mngs[d], FilterCard(s, d, t).mngs[d];
            && g'.seen == g.seen + [t]
            && g'.card == (if g.child.None? && LastAll(g.seen + [t], 4, t) then t else ETINDEV_NULL)
  {
    RunLenAppend(s.mngs[d].seen, t);
    RunLenMeaning(s.mngs[d].seen + [t], 4);
    DebounceCases(s.mngs[d], t);
    FilteredCard(s, d, t);
  }

  lemma FilteredCard(s: Sup, d: nat, t: int)
    requires Fits(s) && Dynamic(s, d)
    ensures var g, g' := s.mngs[d], FilterCard(s, d, t).mngs[d];
            g'.seen == g.seen + [t] && g'.card == if OnlyCounts(g, t) then g.card else t
  {
    FilterCardCases(s, d, t);
    if !OnlyCounts(s.mngs[d], t) { OnOffLineFrame(Carded(s, d, t), d, t); }
  }

  // Acceptance exactly on the fourth report in a row, as the filter fields have it.
  lemma DebounceCases(g: Mng, t: int)
    requires FilterOk(g) && g.card == ETINDEV_NULL && t != ETINDEV_NULL
    requires RunLen(g.seen + [t]) == if g.seen != [] && g.seen[|g.seen| - 1] == t then RunLen(g.seen) + 1 else 1
    ensures !OnlyCounts(g, t) <==> g.child.None? && RunLen(g.seen + [t]) >= 4
  {
  }

  // A card is given up on the first report of anything else, and counting starts afresh.
  lemma CardLost(s: Sup, d: nat, t: int)
    requires Core(s) && Dynamic(s, d) && Reportable(s, d, t) && s.mngs[d].card != ETINDEV_NULL
    ensures var g' := HandleCardChange(s, d, t).mngs[d];
            if t == s.mngs[d].card then g'.card == t else g'.card == ETINDEV_NULL && g'.seen == []
  {
    ReportCases(s, d, t);
    CardGoneCases(s, d);
    OnOffLineFrame(DelFrom2Start(Uncarded(s, d), d), d, ETINDEV_NULL);
  }
}
