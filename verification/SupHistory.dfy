// Debouncing over whole histories of card reports, and what a failing online callback does.

module SupHistory {
  import opened Wrappers
  import opened Queues
  import opened Registry
  import opened SupModel
  import opened SupInv
  import opened SupSteps
  import opened SupChildren
  import opened SupCards
  import opened SupTraversal
  import opened SupRuns

  // What an event reports about slot d: nothing, or one card type.
  function ReportOf(s: Sup, e: Event, d: nat): (r: seq<int>)
    ensures |r| <= 1
  {
    if d >= |s.drv.slots| || d !in s.care then []
    else
      match e
      case CardReport(slot, t) => if slot == d && ETINDEV_NULL <= t < |s.drv.types| then [t] else []
      case CardPoll(cards) => if d < |cards| && ETINDEV_NULL <= cards[d] < |s.drv.types| then [cards[d]] else []
      case _ => []
  }

  // All reports about slot d in a stretch of events.
  function Reports(s: Sup, es: seq<Event>, d: nat): seq<int> {
    if es == [] then [] else Reports(s, es[..|es| - 1], d) + ReportOf(s, es[|es| - 1], d)
  }

  lemma {:induction false} ReportsSlice(s: Sup, s': Sup, es: seq<Event>, j: nat, k: nat, d: nat)
    requires SameConfig(s, s') && j < k <= |es|
    ensures Reports(s, es[j..k], d) == Reports(s, es[j..k - 1], d) + ReportOf(s', es[k - 1], d)
  {
    assert es[j..k][..k - 1 - j] == es[j..k - 1];
  }

  ghost predicate SameCard(g: Mng, g': Mng) {
    g'.card == g.card && g'.cardNew == g.cardNew && g'.cnt == g.cnt && g'.seen == g.seen
  }

  lemma RestartCards(s: Sup, m: nat, d: nat)
    requires Fits(s) && Dynamic(s, m) && d < |s.mngs|
    ensures SameCard(s.mngs[d], Restart(s, m).mngs[d])
  {
    var s1 := OnOffLine(s, m, ETINDEV_NULL).0;
    OnOffLineFrame(s, m, ETINDEV_NULL);
    OnOffLineFrame(s1, m, s.mngs[m].card);
  }

  lemma StopCards(s: Sup, m: nat, d: nat)
    requires Fits(s) && m < |s.mngs| && d < |s.mngs|
    ensures SameCard(s.mngs[d], Stop(s, m).mngs[d])
  {
    if s.mngs[m].child.Some? && s.recs[s.mngs[m].child.value].parent.Some? {
      StopCases(s, m);
      var (s1, ret) := Release(s, s.mngs[m].child.value);
      ReleaseCards(s, s.mngs[m].child.value, d);
      if ret >= 0 && Dynamic(s, m) { RestartCards(s1, m, d); }
    }
  }

  lemma ReleaseCards(s: Sup, r: nat, d: nat)
    requires Fits(s) && r < |s.recs| && s.recs[r].parent.Some? && d < |s.mngs|
    ensures SameCard(s.mngs[d], Release(s, r).0.mngs[d])
  {
  }

  lemma BuryCards(s: Sup, pid: int, d: nat)
    requires Fits(s) && d < |s.mngs|
    ensures SameCard(s.mngs[d], Bury(s, pid).mngs[d])
  {
    var s1 := s.(zombies := s.zombies - {pid});
    var o := FindBusy(s1, pid);
    if o.Some? && s.recs[o.value].parent.Some? { StopCards(s1, s.recs[o.value].parent.value, d); }
  }

  lemma {:induction false} BuryAllCards(s: Sup, pids: seq<int>, d: nat)
    requires Fits(s) && d < |s.mngs|
    ensures SameCard(s.mngs[d], BuryAll(s, pids).mngs[d])
  {
    if pids != [] {
      BuryAllCards(s, pids[..|pids| - 1], d);
      BuryCards(BuryAll(s, pids[..|pids| - 1]), pids[|pids| - 1], d);
    }
  }

  lemma CardChangeAt(s: Sup, slot: int, t: int, d: nat)
    requires Fits(s) && d < |s.mngs| && slot != d
    ensures HandleCardChange(s, slot, t).mngs[d] == s.mngs[d]
  {
    CardChangeLocalised(s, slot, t);
  }

  lemma PollStepAt(st: seq<Sup>, cards: seq<int>, k: nat, d: nat)
    requires Polling(st, cards) && k < |cards| && d < |st[k].mngs|
    ensures |st[k + 1].mngs| == |st[k].mngs| && (d != k ==> st[k + 1].mngs[d] == st[k].mngs[d])
  {
    assert PollsAt(st, cards, k);
    if d != k { CardChangeAt(st[k], k, cards[k], d); }
  }

  // The poll handles slot d once, on an untouched manager.
  lemma {:induction false} PollAt(st: seq<Sup>, cards: seq<int>, n: nat, d: nat)
    requires Polling(st, cards) && n < |st| && d < |st[0].mngs|
    ensures |st[n].mngs| == |st[0].mngs| && (n > d ==> |st[d + 1].mngs| == |st[0].mngs|)
    ensures st[n].mngs[d] == if n <= d then st[0].mngs[d] else st[d + 1].mngs[d]
  {
    if n > 0 {
      PollAt(st, cards, n - 1, d);
      PollStepAt(st, cards, n - 1, d);
    }
  }

  // A manager without a card, before and after the report r (or none).
  ghost predicate Debounced(g: Mng, g': Mng, r: seq<int>) {
    && g'.seen == g.seen + r
    && var accepted := r != [] && r[0] != ETINDEV_NULL && g.child.None? && LastAll(g.seen + r, 4, r[0]);
    && g'.card == (if accepted then r[0] else ETINDEV_NULL)
  }

  lemma KillTimeoutCards(s: Sup, d: nat)
    requires Fits(s) && d < |s.mngs|
    ensures SameCard(s.mngs[d], CheckKillTimeout(s).mngs[d])
  {
    if s.lists[KILLING] != [] && s.recs[First(s.lists[KILLING])].parent.Some? {
      StopCards(s, s.recs[First(s.lists[KILLING])].parent.value, d);
    }
  }

  // What one event makes of the card fields of a slot without a card.
  lemma StepDebounce(s: Sup, e: Event, d: nat)
    requires Inv(s) && Possible(s, e) && Dynamic(s, d) && s.mngs[d].card == ETINDEV_NULL
    ensures Debounced(s.mngs[d], Step(s, e).mngs[d], ReportOf(s, e, d))
  {
    match e
    case CardReport(slot, t) => ReportDebounce(s, slot, t, d);
    case CardPoll(cards) => PollDebounce(s, cards, d);
    case _ => StepQuiet(s, e, d);
  }

  // Other events leave the card fields alone.
  lemma StepQuiet(s: Sup, e: Event, d: nat)
    requires Fits(s) && Possible(s, e) && d < |s.mngs| && !e.CardReport? && !e.CardPoll?
    ensures SameCard(s.mngs[d], Step(s, e).mngs[d])
  {
    match e
    case KillTick => KillTimeoutCards(s, d);
    case SigChld(order) => BuryAllCards(s, order, d);
    case StartTick(fork) => StartCards(s, fork, d);
    case _ => TickMngs(s, e);
  }

  lemma TickMngs(s: Sup, e: Event)
    requires Fits(s) && Possible(s, e)
    requires e.HelloTick? || e.HelloAck? || e.SpvTick? || e.TermTick? || e.Dies? || e.DriverEvent?
    ensures Step(s, e).mngs == s.mngs && Step(s, e).queue == s.queue
  {
    match e
    case HelloTick =>
    case HelloAck(pid) =>
    case SpvTick => SpvEnv(s, s.lists[NORMAL]);
    case TermTick => TermTimeoutMngs(s);
    case Dies(pid) =>
    case DriverEvent(ev) =>
  }

  lemma TermTimeoutMngs(s: Sup)
    requires Fits(s)
    ensures CheckTermTimeout(s).mngs == s.mngs && CheckTermTimeout(s).queue == s.queue
  {
    TermTimeoutCases(s);
    if s.lists[EXITING] != [] { KillFacts(s, First(s.lists[EXITING])); }
  }

  lemma StartCards(s: Sup, fork: int, d: nat)
    requires Fits(s) && d < |s.mngs|
    ensures SameCard(s.mngs[d], CheckNeedStart(s, fork).mngs[d])
  {
    if s.queue != [] {
      var m := First(s.queue);
      CaptureCards(s, m, fork, d);
      StartMngs(s, m, fork);
      assert CheckNeedStart(s, fork).mngs == Start(s, m, fork).mngs;
    }
  }

  lemma StartMngs(s: Sup, m: nat, fork: int)
    requires Fits(s) && m < |s.mngs|
    ensures Start(s, m, fork).mngs == s.mngs || Start(s, m, fork).mngs == Capture(s, m, fork).0.mngs
  {
    if s.mngs[m].child.None? && !(Dynamic(s, m) && s.mngs[m].card == ETINDEV_NULL) {
      var (s1, ret) := Capture(s, m, fork);
      assert Start(s, m, fork) == if ret < 0 then s1 else DelFrom2Start(s1, m);
    }
  }

  lemma CaptureCards(s: Sup, m: nat, fork: int, d: nat)
    requires Fits(s) && m < |s.mngs| && d < |s.mngs|
    ensures SameCard(s.mngs[d], Capture(s, m, fork).0.mngs[d])
  {
  }

  lemma PollDebounce(s: Sup, cards: seq<int>, d: nat)
    requires Core(s) && Dynamic(s, d) && s.mngs[d].card == ETINDEV_NULL
    ensures Debounced(s.mngs[d], CheckDevChange(s, cards, |cards|).mngs[d], ReportOf(s, CardPoll(cards), d))
  {
    var st := PollStates(s, cards);
    PollAt(st, cards, |cards|, d);
    if d < |cards| { PollTurn(st, cards, d); }
  }

  // Slot d's turn.
  lemma PollTurn(st: seq<Sup>, cards: seq<int>, d: nat)
    requires Polling(st, cards) && Core(st[0]) && d < |cards| && Dynamic(st[0], d) && st[0].mngs[d].card == ETINDEV_NULL
    ensures d < |st[d + 1].mngs| && Debounced(st[0].mngs[d], st[d + 1].mngs[d], ReportOf(st[0], CardPoll(cards), d))
  {
    PollAt(st, cards, d, d);
    PollKeeps(st, cards, d);
    assert PollsAt(st, cards, d);
    ReportDebounce(st[d], d, cards[d], d);
    assert ReportOf(st[d], CardReport(d, cards[d]), d) == ReportOf(st[0], CardPoll(cards), d);
  }

  lemma ReportDebounce(s: Sup, slot: int, t: int, d: nat)
    requires Core(s) && Dynamic(s, d) && s.mngs[d].card == ETINDEV_NULL
    ensures Debounced(s.mngs[d], HandleCardChange(s, slot, t).mngs[d], ReportOf(s, CardReport(slot, t), d))
  {
    CardChangeLocalised(s, slot, t);
    if slot == d && Reportable(s, d, t) { Debounce(s, d, t); }
  }

  // A slot with a card keeps it, or loses it and counting starts afresh.
  ghost predicate KeptOrLost(g: Mng, g': Mng) { g'.card == g.card || (g'.card == ETINDEV_NULL && g'.seen == []) }

  lemma ReportKeepsOrLoses(s: Sup, slot: int, t: int, d: nat)
    requires Core(s) && Dynamic(s, d) && s.mngs[d].card != ETINDEV_NULL
    ensures KeptOrLost(s.mngs[d], HandleCardChange(s, slot, t).mngs[d])
  {
    if slot != d { CardChangeAt(s, slot, t, d); } else if Reportable(s, d, t) { CardLost(s, d, t); }
  }

  lemma PollKeepsOrLoses(s: Sup, cards: seq<int>, d: nat)
    requires Core(s) && Dynamic(s, d) && s.mngs[d].card != ETINDEV_NULL
    ensures KeptOrLost(s.mngs[d], CheckDevChange(s, cards, |cards|).mngs[d])
  {
    var st := PollStates(s, cards);
    PollAt(st, cards, |cards|, d);
    if d < |cards| {
      PollAt(st, cards, d, d);
      PollKeeps(st, cards, d);
      assert PollsAt(st, cards, d);
      ReportKeepsOrLoses(st[d], d, cards[d], d);
    }
  }

  lemma StepKeepsOrLoses(s: Sup, e: Event, d: nat)
    requires Inv(s) && Possible(s, e) && Dynamic(s, d) && s.mngs[d].card != ETINDEV_NULL
    ensures KeptOrLost(s.mngs[d], Step(s, e).mngs[d])
  {
    match e
    case CardReport(slot, t) => ReportKeepsOrLoses(s, slot, t, d);
    case CardPoll(cards) => PollKeepsOrLoses(s, cards, d);
    case _ => StepQuiet(s, e, d);
  }

  // From state j to state k the slot has no card.
  ghost predicate Cardless(st: seq<Sup>, j: nat, k: nat, d: nat)
    requires j <= k < |st|
  {
    forall n :: j <= n <= k ==> d < |st[n].mngs| && st[n].mngs[d].card == ETINDEV_NULL
  }

  lemma RunStepDebounce(st: seq<Sup>, es: seq<Event>, k: nat, d: nat)
    requires Behavior(st, es) && Inv(st[0]) && k < |es| && Dynamic(st[0], d)
    requires d < |st[k].mngs| && st[k].mngs[d].card == ETINDEV_NULL
    ensures SameConfig(st[0], st[k]) && d < |st[k + 1].mngs|
    ensures Debounced(st[k].mngs[d], st[k + 1].mngs[d], ReportOf(st[k], es[k], d))
  {
    RunKeeps(st, es, k);
    BehaviorStep(st, es, k);
    StepDebounce(st[k], es[k], d);
  }

  // Event k's report about slot d, if any, is counted.
  ghost predicate Counts(st: seq<Sup>, es: seq<Event>, k: nat, d: nat)
    requires k < |es| && k + 1 < |st|
  {
    && d < |st[k].mngs| && d < |st[k + 1].mngs|
    && st[k + 1].mngs[d].seen == st[k].mngs[d].seen + ReportOf(st[0], es[k], d)
  }

  lemma {:induction false} RunSeen(st: seq<Sup>, es: seq<Event>, j: nat, k: nat, d: nat)
    requires j <= k < |st| == |es| + 1 && d < |st[j].mngs|
    requires forall n {:trigger Counts(st, es, n, d)} :: j <= n < k ==> Counts(st, es, n, d)
    ensures d < |st[k].mngs| && st[k].mngs[d].seen == st[j].mngs[d].seen + Reports(st[0], es[j..k], d)
  {
    if j == k {
      assert es[j..k] == [];
    } else {
      RunSeen(st, es, j, k - 1, d);
      assert Counts(st, es, k - 1, d);
      ReportsSlice(st[0], st[0], es, j, k, d);
    }
  }

  // Counting starts with state j: the run starts there afresh, or the last event took the card away.
  ghost predicate CountsFrom(st: seq<Sup>, j: nat, d: nat)
    requires j < |st|
  {
    if j == 0 then d < |st[0].mngs| && st[0].mngs[d].seen == []
    else d < |st[j - 1].mngs| && st[j - 1].mngs[d].card != ETINDEV_NULL
  }

  lemma CountsFromNothing(st: seq<Sup>, es: seq<Event>, j: nat, d: nat)
    requires Behavior(st, es) && Inv(st[0]) && Dynamic(st[0], d) && j < |st| && CountsFrom(st, j, d)
    requires Cardless(st, j, j, d)
    ensures st[j].mngs[d].seen == []
  {
    if j > 0 {
      RunKeeps(st, es, j - 1);
      BehaviorStep(st, es, j - 1);
      StepKeepsOrLoses(st[j - 1], es[j - 1], d);
      assert st[j].mngs[d].card == ETINDEV_NULL;
    }
  }

  // Debouncing over a history. Let counting start with state j, and the slot be without a card from
  // there to state k. Then event k brings card t exactly if it reports t, no process is attached, and
  // the last four reports since state j, this one included, were all t.
  lemma DebounceHistory(st: seq<Sup>, es: seq<Event>, j: nat, k: nat, d: nat, t: int)
    requires Behavior(st, es) && Inv(st[0]) && Dynamic(st[0], d) && j <= k < |es| && Cardless(st, j, k, d)
    requires CountsFrom(st, j, d) && t != ETINDEV_NULL && !st[k + 1].faulted
    ensures d < |st[k + 1].mngs|
    ensures st[k + 1].mngs[d].card == t <==>
              && ReportOf(st[0], es[k], d) == [t] && st[k].mngs[d].child.None?
              && LastAll(Reports(st[0], es[j..k + 1], d), 4, t)
  {
    assert Cardless(st, j, j, d);
    CountsFromNothing(st, es, j, d);
    RunCountsReports(st, es, j, k, d);
    RunStepDebounce(st, es, k, d);
    DebouncedNext(st[0], st[k], es, j, k, d, st[k].mngs[d], st[k + 1].mngs[d], t);
  }

  lemma RunCountsReports(st: seq<Sup>, es: seq<Event>, j: nat, k: nat, d: nat)
    requires Behavior(st, es) && Inv(st[0]) && Dynamic(st[0], d) && j <= k < |es| && Cardless(st, j, k, d)
    ensures st[k].mngs[d].seen == st[j].mngs[d].seen + Reports(st[0], es[j..k], d)
  {
    forall n | j <= n < k ensures Counts(st, es, n, d) { RunStepDebounce(st, es, n, d); }
    RunSeen(st, es, j, k, d);
  }

  lemma DebouncedNext(s: Sup, s': Sup, es: seq<Event>, j: nat, k: nat, d: nat, g: Mng, g': Mng, t: int)
    requires SameConfig(s, s') && j <= k < |es| && t != ETINDEV_NULL
    requires g.seen == Reports(s, es[j..k], d) && Debounced(g, g', ReportOf(s', es[k], d))
    ensures g'.card == t <==>
              ReportOf(s, es[k], d) == [t] && g.child.None? && LastAll(Reports(s, es[j..k + 1], d), 4, t)
  {
    ReportsSlice(s, s', es, j, k + 1, d);
    var r := ReportOf(s, es[k], d);
    assert r == ReportOf(s', es[k], d);
    assert r == [t] <==> r != [] && r[0] == t;
  }

  // ---------- failing online callbacks ----------

  // When a process of a slot is gone, its manager still agrees with the driver exactly if the slot has
  // no card by now or bringing that card on line succeeds.
  lemma StopAgreesIff(s: Sup, d: nat)
    requires Core(s) && Agrees(s) && Dynamic(s, d) && s.mngs[d].child.Some?
    requires s.recs[s.mngs[d].child.value].pid !in s.alive
    ensures ETINDEV_NULL <= s.mngs[d].card < |s.drv.types|
    ensures Agrees(Stop(s, d)) <==> s.mngs[d].card == ETINDEV_NULL || OnlineSucceeds(s, d, s.mngs[d].card)
    ensures !Agrees(Stop(s, d)) ==>
              var s' := Stop(s, d);
              s'.mngs[d].card != ETINDEV_NULL && s'.mngs[d].child.None? && d !in s'.queue
  {
    var r := s.mngs[d].child.value;
    assert MngBasic(s, d) && MngDriver(s, d);
    ReleaseDetaches(s, d);
    var s1 := Release(s, r).0;
    OthersAgree(s, s1, d);
    RestartAgrees(s1, d);
    assert Stop(s, d) == Restart(s1, d);
  }

  lemma RestartAgrees(s: Sup, m: nat)
    requires Detached(s, m) && Dynamic(s, m) && AgreesBut(s, m)
    requires ETINDEV_NULL <= s.mngs[m].card < |s.drv.types| && m in s.care && FilterOk(s.mngs[m])
    requires s.drv.slots[m].card != ETINDEV_NULL && Alternate(s.mngs[m].io)
    requires s.drv.slots[m].card == CardAfter(s.mngs[m].io)
    ensures var s' := Restart(s, m);
            && (Agrees(s') <==> s.mngs[m].card == ETINDEV_NULL || OnlineSucceeds(s, m, s.mngs[m].card))
            && (!Agrees(s') ==> s'.mngs[m].card != ETINDEV_NULL && s'.mngs[m].child.None? && m !in s'.queue)
  {
    RestartKeeps(s, m);
    RestartAgreesIff(s, m);
    assert Agrees(Restart(s, m)) <==> MngDriver(Restart(s, m), m);
  }

  // The same refusal when a card is accepted: the manager is queued although the slot is off line.
  lemma AcceptAgreesIff(s: Sup, d: nat, t: int)
    requires Core(s) && Agrees(s) && Dynamic(s, d) && Reportable(s, d, t)
    requires s.mngs[d].card == ETINDEV_NULL && HandleCardChange(s, d, t).mngs[d].card != ETINDEV_NULL
    ensures t >= 0 && (Agrees(HandleCardChange(s, d, t)) <==> OnlineSucceeds(s, d, t))
    ensures d in HandleCardChange(s, d, t).queue
  {
    assert MngBasic(s, d);
    AcceptedOnly(s, d, t);
    AcceptCardKeeps(s, d, t);
  }

  lemma AcceptedOnly(s: Sup, d: nat, t: int)
    requires Fits(s) && Dynamic(s, d) && Reportable(s, d, t)
    requires s.mngs[d].card == ETINDEV_NULL && HandleCardChange(s, d, t).mngs[d].card != ETINDEV_NULL
    ensures t >= 0 && s.mngs[d].child.None? && HandleCardChange(s, d, t) == AcceptCard(s, d, t)
    ensures d in AcceptCard(s, d, t).queue
  {
    ReportCases(s, d, t);
    FilterCardCases(s, d, t);
    OnOffLineFrame(Carded(s, d, t), d, t);
  }
}
