/** The ledger of writes and publishes. */
module Accounting {
  import opened PaymentDomain
  import opened Protocol
  import opened ControlFlow
  import opened History
  import opened Coherence

  // ---------- Write before publish ----------

  lemma {:induction false} LedgerOfHandlers(hs: seq<Handler>, id: string)
    ensures Tally(hs, Publishes(id)) + Tally(hs, MidPublish(id)) == Tally(hs, AnnouncedWrites(id))
    decreases |hs|
  {
    if hs != [] {
      LedgerOfHandlers(hs[..|hs| - 1], id);
    }
  }

  /** Whatever the gateway answers and however handlers interleave: publish attempts, plus handlers stopped between
      their write and their publish, are the acknowledged callback writes plus the acknowledged terminal writes of
      status checks. */
  lemma {:induction false} WritePublishLedger(labels: seq<Label>, id: string)
    ensures var s := Run(INIT, labels);
            Occurs(s.log, Publishes(id)) + Tally(s.handlers, MidPublish(id)) == Occurs(s.log, AnnouncedWrites(id))
  {
    LogCountsAreTallies(labels, Publishes(id));
    LogCountsAreTallies(labels, AnnouncedWrites(id));
    LedgerOfHandlers(Run(INIT, labels).handlers, id);
  }

  /** Entry `k` publishes a status that the same handler had an acknowledged write of, earlier in the log. */
  predicate Backed(log: seq<Event>, k: nat)
    requires k < |log|
  {
    match log[k]
    case Did(i, id, PublishedCallback(status)) => Did(i, id, WroteCallback(status, true)) in log[..k]
    case Did(i, id, PublishedCheck(status)) => Did(i, id, WroteCheck(status, true)) in log[..k] && IsTerminal(status)
    case _ => true
  }

  lemma OwnActLogged(s: State, i: nat, act: Act)
    requires OwnHistory(s) && i < |s.handlers| && act in Expected(s.handlers[i])
    ensures Did(i, s.handlers[i].Id(), act) in s.log
  {
    hide Expected, ExtractTransactionId;
    assert Trace(s.log, i) == Expected(s.handlers[i]);
    TraceInLog(s.log, i, act);
    var k :| 0 <= k < |s.log| && s.log[k].Did? && s.log[k].who == i && s.log[k].act == act;
    assert s.log[k] in s.log && s.log[k] == Did(i, s.handlers[i].Id(), act);
  }

  lemma BackedAdvance(s: State, i: nat, n: Stepped)
    requires OwnHistory(s) && i < |s.handlers| && Moves(i, s.handlers[i], n.handler, n.event)
    requires Coherent(s.handlers[i])
    ensures n.event.Some? ==> Backed(Logged(s.log, n.event), |s.log|)
  {
    hide OwnHistory, ExtractTransactionId, BuildCallbackLockKey, ExtractStatusFromCallback;
    var h := s.handlers[i];
    if h.Callback? && h.cpc.AwaitPublish? {
      OwnActLogged(s, i, WroteCallback(h.cpc.status, true));
    } else if h.Check? && h.spc.AwaitCheckPublish? {
      OwnActLogged(s, i, WroteCheck(h.spc.word, true));
    }
    assert n.event.Some? ==> Logged(s.log, n.event)[..|s.log|] == s.log;
  }

  lemma BackedStep(s: State, l: Label)
    requires OwnHistory(s) && AllCoherent(s)
    ensures s.log <= Apply(s, l).log && |Apply(s, l).log| <= |s.log| + 1
    ensures |Apply(s, l).log| > |s.log| ==> Backed(Apply(s, l).log, |s.log|)
  {
    hide HandlerStep, Effects, ReadsTable, Moves, OwnHistory, Coherent;
    match l
    case Advance(i, o) =>
      if Active(s, i) {
        var n := ApplyAdvance(s, i, o);
        BackedAdvance(s, i, n);
      }
    case _ =>
  }

  /** Every publish in the log is backed by its own handler's earlier write of the same status. */
  lemma {:induction false} PublishesAreBacked(labels: seq<Label>, k: nat)
    requires k < |Run(INIT, labels).log|
    ensures Backed(Run(INIT, labels).log, k)
    decreases |labels|
  {
    hide Apply, OwnHistory, AllCoherent;
    if labels != [] {
      var before := labels[..|labels| - 1];
      var s := Run(INIT, before);
      EveryHandlerFollowsItsText(before);
      CoherentThroughout(before);
      BackedStep(s, labels[|labels| - 1]);
      if k < |s.log| {
        PublishesAreBacked(before, k);
        assert Run(INIT, labels).log[..k] == s.log[..k];
      }
    }
  }
}
