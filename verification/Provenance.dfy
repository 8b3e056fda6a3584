/** Where `processed` comes from, what failed callbacks leave behind, and who deletes which key. */
module Provenance {
  import opened Wrappers
  import opened PaymentDomain
  import opened PaymentTable
  import opened World
  import opened Protocol
  import opened ControlFlow
  import opened History
  import opened Coherence
  import opened RowLife

  ghost predicate ProcessedWereWritten(s: State) {
    forall r :: r in s.shared.rows && s.shared.rows[r].processed ==>
      s.shared.rows[r].transactionId.Some? && Occurs(s.log, CallbackWrites(s.shared.rows[r].transactionId.value)) > 0
  }

  lemma ProcessedAdvance(s: State, i: nat, n: Stepped)
    requires ProcessedWereWritten(s) && i < |s.handlers| && Shaped(s.shared, i, s.handlers[i], n)
    ensures ProcessedWereWritten(s.(shared := n.shared, handlers := s.handlers[i := n.handler], log := Logged(s.log, n.event)))
  {
    hide Moves, ReadsTable, ExtractTransactionId, BuildCallbackLockKey, Occurs, IsTerminal;
    var log := Logged(s.log, n.event);
    forall r | r in n.shared.rows && n.shared.rows[r].processed
      ensures n.shared.rows[r].transactionId.Some? &&
              Occurs(log, CallbackWrites(n.shared.rows[r].transactionId.value)) > 0
    {
      OccursLogged(s.log, n.event, CallbackWrites(n.shared.rows[r].transactionId.GetOr("")));
    }
  }

  lemma ProcessedStep(s: State, l: Label)
    requires ProcessedWereWritten(s)
    ensures ProcessedWereWritten(Apply(s, l))
  {
    hide HandlerStep, Shaped, Counts, FindById;
    match l
    case Advance(i, o) =>
      if Active(s, i) {
        var n := ApplyAdvance(s, i, o);
        ProcessedAdvance(s, i, n);
      }
    case Expire(key) =>
      forall r | r in s.shared.rows && s.shared.rows[r].processed
        ensures Occurs(Apply(s, l).log, CallbackWrites(s.shared.rows[r].transactionId.value)) > 0
      {
        OccursLogged(s.log, Some(Expired(key)), CallbackWrites(s.shared.rows[r].transactionId.value));
      }
    case _ =>
  }

  lemma {:induction false} ProcessedThroughout(labels: seq<Label>)
    ensures ProcessedWereWritten(Run(INIT, labels))
    decreases |labels|
  {
    hide Apply;
    if labels != [] {
      ProcessedThroughout(labels[..|labels| - 1]);
      ProcessedStep(Run(INIT, labels[..|labels| - 1]), labels[|labels| - 1]);
    }
  }

  /** The start of a handler's history that makes its write legitimate. */
  function LegitimateWrite(status: string, acknowledged: bool): seq<Act> {
    [Acquired, ReadUnprocessed, Validated, WroteCallback(status, acknowledged)]
  }

  lemma WriterHistory(h: Handler, id: string)
    requires Weight(h, CallbackWrites(id)) > 0
    ensures h.Callback? && h.Id() == id
    ensures exists status, acknowledged :: LegitimateWrite(status, acknowledged) <= Expected(h)
  {
    hide ExtractTransactionId, BuildCallbackLockKey;
    match h.cpc
    case AwaitPublish(_, status) => assert LegitimateWrite(status, true) <= Expected(h);
    case AwaitNotify(_, status) => assert LegitimateWrite(status, true) <= Expected(h);
    case AwaitRelease(exit) =>
      assert LegitimateWrite(exit.status, exit.Processed?) <= Expected(h);
    case CallbackDone(exit, _) =>
      assert LegitimateWrite(exit.status, exit.Processed?) <= Expected(h);
  }

  /** Every processed row has in the log a callback for its transaction that took the lock, then read the row
      unprocessed, then passed signature validation, then wrote it. */
  lemma ProcessedHasProvenance(labels: seq<Label>, r: string)
    requires r in Run(INIT, labels).shared.rows && Run(INIT, labels).shared.rows[r].processed
    ensures var s := Run(INIT, labels);
            exists i: nat, status, acknowledged ::
              && i < |s.handlers| && s.handlers[i].Callback?
              && s.shared.rows[r].transactionId == Some(s.handlers[i].Id())
              && LegitimateWrite(status, acknowledged) <= Trace(s.log, i)
  {
    var s := Run(INIT, labels);
    hide Run, Weight, Expected, ExtractTransactionId;
    ProcessedThroughout(labels);
    var id := s.shared.rows[r].transactionId.value;
    LogCountsAreTallies(labels, CallbackWrites(id));
    TallyPositive(s.handlers, CallbackWrites(id));
    var i :| 0 <= i < |s.handlers| && Weight(s.handlers[i], CallbackWrites(id)) > 0;
    WriterHistory(s.handlers[i], id);
    EveryHandlerFollowsItsText(labels);
    var status, ack :| LegitimateWrite(status, ack) <= Expected(s.handlers[i]);
    assert LegitimateWrite(status, ack) <= Trace(s.log, i);
  }

  /** Rows change only by a logged write or creation, or when the environment binds a transaction id. */
  lemma RowsChangeOnlyByLog(s: State, l: Label)
    requires Apply(s, l).shared.rows != s.shared.rows
    ensures || l.BindId?
            || (LabelEvent(s, l).Some? &&
                (LabelEvent(s, l).value.Created? ||
                 (LabelEvent(s, l).value.Did? &&
                  (LabelEvent(s, l).value.act.WroteCallback? || LabelEvent(s, l).value.act.WroteCheck?))))
  {
    hide HandlerStep, Moves, ReadsTable, UpdateWhere, Upsert;
    match l
    case Advance(i, o) =>
      if Active(s, i) {
        var n := ApplyAdvance(s, i, o);
      }
    case _ =>
  }

  predicate DoneUnder(s: State, e: Event, key: string) {
    e.Did? && e.who < |s.handlers| && s.handlers[e.who].Key() == key
  }

  predicate SetsKey(s: State, e: Event, key: string) {
    DoneUnder(s, e, key) && (e.act.Acquired? || e.act.AcquiredBlindly?)
  }

  predicate FreesKey(s: State, e: Event, key: string) {
    e == Expired(key) || (DoneUnder(s, e, key) && e.act.Deleted?)
  }

  /** A lock key changes only by a logged event: it is set afterwards exactly when the event set it, or when it was set
      and the event freed it neither by a `DEL` under that key nor by its expiry. */
  lemma {:induction false} LocksFollowLog(s: State, l: Label, key: string)
    ensures var e := LabelEvent(s, l);
            key in Apply(s, l).shared.locks <==>
              (e.Some? && SetsKey(s, e.value, key)) ||
              (key in s.shared.locks && !(e.Some? && FreesKey(s, e.value, key)))
  {
    hide HandlerStep, Moves, ReadsTable, RowsAfter, ExtractTransactionId, BuildCallbackLockKey, FindById, Handler.Key;
    match l
    case Advance(i, o) =>
      if Active(s, i) {
        var n := ApplyAdvance(s, i, o);
        EventWho(s.shared, i, s.handlers[i], n);
        assert LabelEvent(s, l) == n.event;
      }
    case _ =>
  }

  lemma EventWho(sh: Shared, me: nat, h: Handler, n: Stepped)
    requires Shaped(sh, me, h, n)
    ensures n.event.Some? && n.event.value.Did? ==> n.event.value.who == me
    ensures n.event.Some? ==> !n.event.value.Expired?
  {
  }

  predicate EndedBeforeUpdate(exit: Exit) {
    !exit.Processed? && !(exit.UpdateFailed? && exit.applied)
  }

  /** A callback that ends before its update has written nothing and published nothing. */
  lemma EarlyFailuresAreQuiet(labels: seq<Label>, i: nat, act: Act)
    requires var s := Run(INIT, labels);
             && i < |s.handlers| && s.handlers[i].Callback? && s.handlers[i].cpc.CallbackDone?
             && EndedBeforeUpdate(s.handlers[i].cpc.exit)
             && act in Trace(s.log, i)
    ensures act == Acquired || act == AcquiredBlindly || act == ReadUnprocessed || act == Validated || act.Deleted?
  {
    EveryHandlerFollowsItsText(labels);
    hide Run;
  }

  predicate EndsInDelete(trace: seq<Act>) {
    trace != [] && trace[|trace| - 1].Deleted?
  }

  /** Only a handler that took the lock ever issues a `DEL`; one that missed it never does. And every handler that took
      the lock and is done, whether it returned or threw, has issued its `DEL` last, unless the `DEL` itself failed,
      and then its caller got an error. */
  lemma ReleaseDiscipline(labels: seq<Label>, i: nat)
    requires var s := Run(INIT, labels); i < |s.handlers| && s.handlers[i].Callback?
    ensures var s := Run(INIT, labels);
            var trace := Trace(s.log, i);
            && (forall k :: 0 <= k < |trace| && trace[k].Deleted? ==> k == |trace| - 1 && trace[0] == Acquired)
            && (s.handlers[i].Done() && trace != [] && trace[0] == Acquired ==>
                  EndsInDelete(trace) ||
                  CallbackResult(s.handlers[i].Id(), s.handlers[i].cpc.exit, s.handlers[i].cpc.release).Failure?)
            && (s.handlers[i].Done() && trace != [] && trace[0] == Acquired ==>
                  (EndsInDelete(trace) <==> !s.handlers[i].cpc.release.StuckThrew?))
  {
    EveryHandlerFollowsItsText(labels);
    CoherentThroughout(labels);
    var s := Run(INIT, labels);
    hide Run, ExtractTransactionId, BuildCallbackLockKey, ExtractStatusFromCallback;
    assert Coherent(s.handlers[i]);
    assert Trace(s.log, i) == CallbackActs(s.handlers[i].cpc);
    TextDeletesLast(s.handlers[i].cpc, s.handlers[i].Id(), ExtractStatusFromCallback(s.handlers[i].payload));
  }

  lemma TextDeletesLast(pc: CallbackPc, id: string, reported: string)
    requires CoherentCallback(pc, id, reported)
    ensures var acts := CallbackActs(pc);
            && (forall k :: 0 <= k < |acts| && acts[k].Deleted? ==> k == |acts| - 1 && acts[0] == Acquired)
            && (pc.CallbackDone? && acts != [] && acts[0] == Acquired ==>
                  (EndsInDelete(acts) <==> !pc.release.StuckThrew?))
  {
    if pc.CallbackDone? {
      ExitTextDeletesNothing(pc.exit);
    } else if pc.AwaitRelease? {
      ExitTextDeletesNothing(pc.exit);
    }
  }

  lemma ExitTextDeletesNothing(exit: Exit)
    ensures forall k :: 0 <= k < |ExitActs(exit)| ==> !ExitActs(exit)[k].Deleted?
    ensures KeyNeverTaken(exit) ==> ExitActs(exit) == [] || ExitActs(exit) == [AcquiredBlindly]
    ensures !KeyNeverTaken(exit) ==> ExitActs(exit) != [] && ExitActs(exit)[0] == Acquired
  {
  }
}
