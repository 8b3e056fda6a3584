/** What an honest payment hub buys: final statuses stay, and terminal publishes are few. */
module FinalStatus {
  import opened Wrappers
  import opened PaymentDomain
  import opened PaymentTable
  import opened World
  import opened Protocol
  import opened ControlFlow
  import opened History
  import opened RowLife
  import opened EffectivelyOnce
  import opened GatewayAgreement

  ghost predicate RowFinal(s: State, id: string) {
    var found := FindById(s.shared.rows, id);
    found.Some? && IsTerminal(found.value.status)
  }

  /** In agreement, every write of `id` writes the settled outcome, so a final row stays as it is. */
  lemma FinalStep(s: State, l: Label, id: string)
    requires Agreement(s) && Agreement(Apply(s, l)) && NeverReset(Apply(s, l).log, id)
    ensures RowFinal(s, id) ==> RowFinal(Apply(s, l), id) &&
                                FindById(Apply(s, l).shared.rows, id).value.status == FindById(s.shared.rows, id).value.status
    ensures LabelEvent(s, l).Some? && IsWrite(LabelEvent(s, l).value, id) ==>
              IsSettled(s.settled, id, LabelEvent(s, l).value.act.status) &&
              (FindById(s.shared.rows, id).Some? ==> RowFinal(Apply(s, l), id))
  {
    AgreementWellFormed(s);
    if FindById(s.shared.rows, id).Some? {
      FoundRowAgrees(s, id);
    }
    WriteSettled(s, l, id);
    hide Apply, Agreement, WellFormed, FindById, LabelEvent, RowFollows, Resets, RowAgrees, IsSettled, IsWrite, IsTerminal;
    RowStep(s, l, id);
    var e := LabelEvent(s, l);
    assert e.Some? ==> e.value in Apply(s, l).log;
    FinalRowFollows(FindById(s.shared.rows, id), FindById(Apply(s, l).shared.rows, id), e, id, s.settled);
  }

  /** The same about the row alone. */
  lemma FinalRowFollows(before: Option<Row>, after: Option<Row>, event: Option<Event>, id: string, settled: map<string, string>)
    requires RowFollows(before, after, event, id)
    requires before.Some? ==> HasId(before.value, id) && RowAgrees(before.value, settled)
    requires event.Some? && IsWrite(event.value, id) ==>
               IsSettled(settled, id, event.value.act.status) && IsTerminal(event.value.act.status)
    ensures before.Some? && IsTerminal(before.value.status) ==> after.Some? && after.value.status == before.value.status
    ensures before.Some? && event.Some? && IsWrite(event.value, id) ==> after.Some? && IsTerminal(after.value.status)
  {
  }

  lemma FoundRowAgrees(s: State, id: string)
    requires Agreement(s) && FindById(s.shared.rows, id).Some?
    ensures var row := FindById(s.shared.rows, id).value; HasId(row, id) && RowAgrees(row, s.settled)
    ensures id in s.settled ==> IsTerminal(s.settled[id])
  {
    hide WellFormed, HandlerAgrees;
    var r :| r in s.shared.rows && s.shared.rows[r] == FindById(s.shared.rows, id).value;
    assert RowAgrees(s.shared.rows[r], s.settled);
  }

  lemma WriteSettled(s: State, l: Label, id: string)
    requires Agreement(s)
    ensures LabelEvent(s, l).Some? && IsWrite(LabelEvent(s, l).value, id) ==>
              IsSettled(s.settled, id, LabelEvent(s, l).value.act.status) &&
              IsTerminal(LabelEvent(s, l).value.act.status)
  {
    hide HandlerStep, Moves, ReadsTable, Effects, HandlerAgrees, WellFormed, IsTerminal, FindById;
    match l
    case Advance(i, o) =>
      if Active(s, i) {
        var n := ApplyAdvance(s, i, o);
        assert LabelEvent(s, l) == n.event;
        WritesAgree(i, s.handlers[i], n, s.settled);
      }
    case _ =>
  }

  predicate IsWrite(e: Event, id: string) {
    e.Did? && e.id == id && (e.act.WroteCallback? || e.act.WroteCheck?)
  }

  /** The row of a transaction, once final, keeps its status through every honest continuation. */
  lemma {:induction false} FinalStatusSticks(before: seq<Label>, after: seq<Label>, id: string)
    requires HonestRun(before + after, {PENDING})
    requires NeverReset(Run(INIT, before + after).log, id)
    requires RowFinal(Run(INIT, before), id)
    ensures RowFinal(Run(INIT, before + after), id)
    ensures FindById(Run(INIT, before + after).shared.rows, id).value.status ==
            FindById(Run(INIT, before).shared.rows, id).value.status
    decreases |after|
  {
    hide Apply, HonestLabel, FindById, Agreement;
    if after == [] {
      assert before + after == before;
    } else {
      var labels, rest := before + after, after[..|after| - 1];
      assert labels[..|labels| - 1] == before + rest;
      var mid := Run(INIT, before + rest);
      HonestLast(labels, {PENDING});
      AgreementThroughout(labels);
      AgreementThroughout(before + rest);
      HistoryGrows(mid, labels[|labels| - 1]);
      assert NeverReset(mid.log, id);
      FinalStatusSticks(before, rest, id);
      FinalStep(mid, labels[|labels| - 1], id);
    }
  }

  // ---------- Bounding the publishes ----------

  ghost predicate Written(log: seq<Event>, id: string) {
    exists e :: e in log && IsWrite(e, id)
  }

  /** The status checks of `id` that read the row before anyone wrote it. */
  ghost function EarlyReads(log: seq<Event>, id: string): nat
    decreases |log|
  {
    if log == [] then 0
    else
      var before, e := log[..|log| - 1], log[|log| - 1];
      EarlyReads(before, id) +
      if e.Did? && e.id == id && e.act.ReadForCheck? && !Written(before, id) then 1 else 0
  }

  lemma EarlyReadsLogged(log: seq<Event>, event: Option<Event>, id: string)
    ensures EarlyReads(Logged(log, event), id) ==
            EarlyReads(log, id) +
            if event.Some? && event.value.Did? && event.value.id == id && event.value.act.ReadForCheck? && !Written(log, id)
            then 1 else 0
  {
    if event.Some? {
      assert (log + [event.value])[..|log|] == log;
    }
  }

  /** Writing needs a row, and only a written row is anything but pending. */
  ghost predicate WritersHaveRows(s: State, id: string) {
    && (forall i :: 0 <= i < |s.handlers| && s.handlers[i].Id() == id && WillWrite(s.handlers[i]) ==>
          FindById(s.shared.rows, id).Some?)
    && (Written(s.log, id) ==> RowFinal(s, id))
  }

  predicate WillWrite(h: Handler) {
    || (h.Callback? && (h.cpc.AwaitConfig? || h.cpc.AwaitUpdate?))
    || (h.Check? && (h.spc.AwaitQuery? || h.spc.AwaitStore?))
  }

  lemma MovesWrite(sh: Shared, me: nat, h: Handler, n: Stepped, id: string)
    requires Shaped(sh, me, h, n) && h.Id() == id
    ensures n.handler.Id() == id
    ensures WillWrite(n.handler) ==> WillWrite(h) || FindById(sh.rows, id).Some?
    ensures n.event.Some? && n.event.value.Did? ==> n.event.value.id == id
    ensures n.event.Some? && IsWrite(n.event.value, id) ==> WillWrite(h)
  {
    hide Effects, ExtractTransactionId, BuildCallbackLockKey, FindById;
  }

  lemma WritersAdvance(s: State, i: nat, n: Stepped, t: State, id: string)
    requires Active(s, i) && Shaped(s.shared, i, s.handlers[i], n) && WritersHaveRows(s, id)
    requires t.handlers == s.handlers[i := n.handler]
    requires FindById(s.shared.rows, id).Some? ==> FindById(t.shared.rows, id).Some?
    ensures forall j :: 0 <= j < |t.handlers| && t.handlers[j].Id() == id && WillWrite(t.handlers[j]) ==>
              FindById(t.shared.rows, id).Some?
    ensures n.event.Some? && IsWrite(n.event.value, id) ==> FindById(s.shared.rows, id).Some?
  {
    MovesWrite(s.shared, i, s.handlers[i], n, s.handlers[i].Id());
    hide Shaped, FindById, WillWrite, ExtractTransactionId;
  }

  lemma WritersStep(s: State, l: Label, id: string)
    requires Agreement(s) && Agreement(Apply(s, l)) && NeverReset(Apply(s, l).log, id)
    requires WritersHaveRows(s, id)
    ensures WritersHaveRows(Apply(s, l), id)
  {
    hide HandlerStep, Shaped, FindById, Agreement, Bind, ExtractTransactionId, HandlerAgrees, IsTerminal, RowFinal, WellFormed;
    var t := Apply(s, l);
    AgreementWellFormed(s);
    RowStep(s, l, id);
    FinalStep(s, l, id);
    var e := LabelEvent(s, l);
    assert e.Some? ==> e.value in t.log;
    match l
    case Advance(i, o) =>
      if Active(s, i) {
        var n := ApplyAdvance(s, i, o);
        assert e == n.event;
        WritersAdvance(s, i, n, t, id);
      }
    case _ =>
  }

  lemma AgreementWellFormed(s: State)
    requires Agreement(s)
    ensures WellFormed(s.shared.rows)
  {
  }

  lemma {:induction false} WritersThroughout(labels: seq<Label>, id: string)
    requires HonestRun(labels, {PENDING}) && NeverReset(Run(INIT, labels).log, id)
    ensures WritersHaveRows(Run(INIT, labels), id)
    decreases |labels|
  {
    hide Apply, HonestLabel, FindById, Agreement;
    if labels != [] {
      var before := labels[..|labels| - 1];
      HonestLast(labels, {PENDING});
      AgreementThroughout(labels);
      AgreementThroughout(before);
      HistoryGrows(Run(INIT, before), labels[|labels| - 1]);
      assert NeverReset(Run(INIT, before).log, id);
      WritersThroughout(before, id);
      WritersStep(Run(INIT, before), labels[|labels| - 1], id);
    }
  }

  /** Reading `pending` means reading early. */
  lemma {:induction false} PendingReadsAreEarly(labels: seq<Label>, id: string)
    requires HonestRun(labels, {PENDING}) && NeverReset(Run(INIT, labels).log, id)
    ensures Occurs(Run(INIT, labels).log, PendingReads(id)) <= EarlyReads(Run(INIT, labels).log, id)
    decreases |labels|
  {
    hide Apply, HonestLabel, FindById, Agreement, RowFinal;
    if labels != [] {
      var before, l := labels[..|labels| - 1], labels[|labels| - 1];
      var s := Run(INIT, before);
      HonestLast(labels, {PENDING});
      AgreementThroughout(before);
      HistoryGrows(s, l);
      assert NeverReset(s.log, id);
      PendingReadsAreEarly(before, id);
      WritersThroughout(before, id);
      AgreementWellFormed(s);
      RowStep(s, l, id);
      PendingReadStep(s, l, id);
      OccursLogged(s.log, LabelEvent(s, l), PendingReads(id));
      EarlyReadsLogged(s.log, LabelEvent(s, l), id);
    }
  }

  /** A status check logs `pending` only if that is what it found. */
  lemma PendingReadFound(sh: Shared, me: nat, h: Handler, n: Stepped, id: string)
    requires Shaped(sh, me, h, n) && n.event.Some? && Counts(n.event.value, PendingReads(id))
    ensures FindById(sh.rows, id).Some? && FindById(sh.rows, id).value.status == PENDING
  {
    hide FindById, Effects, ExtractTransactionId, BuildCallbackLockKey;
  }

  lemma PendingReadStep(s: State, l: Label, id: string)
    ensures LabelEvent(s, l).Some? && Counts(LabelEvent(s, l).value, PendingReads(id)) ==> !RowFinal(s, id)
  {
    hide HandlerStep, FindById, Shaped, IsFresh, Bind;
    match l
    case Advance(i, o) =>
      if Active(s, i) {
        var n := ApplyAdvance(s, i, o);
        assert LabelEvent(s, l) == n.event;
        if n.event.Some? && Counts(n.event.value, PendingReads(id)) {
          PendingReadFound(s.shared, i, s.handlers[i], n, id);
        }
      }
    case _ =>
  }

  lemma {:induction false} TallySplit(hs: seq<Handler>, id: string)
    ensures Tally(hs, Publishes(id)) <= Tally(hs, CallbackWrites(id)) + Tally(hs, TerminalCheckWrites(id))
    decreases |hs|
  {
    if hs != [] {
      TallySplit(hs[..|hs| - 1], id);
    }
  }

  /** A status check that wrote an outcome had read `pending`. */
  lemma OutcomeFollowsPending(h: Handler, settled: map<string, string>, id: string)
    requires HandlerAgrees(h, settled)
    ensures Weight(h, TerminalCheckWrites(id)) <= Weight(h, PendingReads(id))
  {
    hide ExtractTransactionId, BuildCallbackLockKey;
  }

  lemma {:induction false} CheckWritesBounded(labels: seq<Label>, id: string)
    requires HonestRun(labels, {PENDING}) && NeverReset(Run(INIT, labels).log, id)
    ensures Occurs(Run(INIT, labels).log, TerminalCheckWrites(id)) <= EarlyReads(Run(INIT, labels).log, id)
  {
    hide Run, Weight, HandlerAgrees, HonestRun, NeverReset;
    var s := Run(INIT, labels);
    AgreementThroughout(labels);
    forall i | 0 <= i < |s.handlers|
      ensures Weight(s.handlers[i], TerminalCheckWrites(id)) <= Weight(s.handlers[i], PendingReads(id))
    {
      OutcomeFollowsPending(s.handlers[i], s.settled, id);
    }
    TallyBound(s.handlers, TerminalCheckWrites(id), PendingReads(id));
    LogCountsAreTallies(labels, TerminalCheckWrites(id));
    LogCountsAreTallies(labels, PendingReads(id));
    PendingReadsAreEarly(labels, id);
  }

  /** With an honest hub, a transaction is published at most once per allowed callback write and once per status
      check that read the row before the first write. */
  lemma {:induction false} PublishesBounded(labels: seq<Label>, id: string, partners: seq<string>)
    requires HonestRun(labels, {PENDING})
    requires var s := Run(INIT, labels); NeverReset(s.log, id) && OnlyPartners(s.handlers, id, partners)
    ensures var log := Run(INIT, labels).log;
            Occurs(log, Publishes(id)) <= Allowance(log, id, partners) + EarlyReads(log, id)
  {
    hide Run, HonestRun;
    CallbacksWriteWithinAllowance(labels, id, partners);
    CheckWritesBounded(labels, id);
    LogCountsAreTallies(labels, Publishes(id));
    LogCountsAreTallies(labels, CallbackWrites(id));
    LogCountsAreTallies(labels, TerminalCheckWrites(id));
    TallySplit(Run(INIT, labels).handlers, id);
  }
}
