/** What Aspin is told, notice by notice, is what the history says; and with an honest hub it is the truth. */
module NoticeLog {
  import opened Wrappers
  import opened PaymentDomain
  import opened PaymentTable
  import opened World
  import opened Protocol
  import opened ControlFlow
  import opened Coherence
  import opened GatewayAgreement

  predicate IsNotice(e: Event) {
    e.Did? && e.act.Notified?
  }

  /** The notices of the log, in order. */
  function NoticesIn(log: seq<Event>): (events: seq<Event>)
    ensures forall k :: 0 <= k < |events| ==> IsNotice(events[k])
    decreases |log|
  {
    if log == [] then []
    else NoticesIn(log[..|log| - 1]) + if IsNotice(log[|log| - 1]) then [log[|log| - 1]] else []
  }

  /** Aspin is told about the event's transaction that it completed if it did, and otherwise that it failed. */
  predicate Tells(n: Notice, e: Event)
    requires IsNotice(e)
  {
    n.transactionId == Some(e.id) && n.status == if e.act.status == COMPLETED then COMPLETED else FAILED
  }

  ghost predicate NoticesInStep(s: State) {
    |s.shared.notices| == |NoticesIn(s.log)| &&
    forall k :: 0 <= k < |s.shared.notices| ==> Tells(s.shared.notices[k], NoticesIn(s.log)[k])
  }

  lemma NoticesLogged(log: seq<Event>, event: Option<Event>)
    ensures NoticesIn(Logged(log, event)) ==
            NoticesIn(log) + if event.Some? && IsNotice(event.value) then [event.value] else []
  {
    if event.Some? {
      assert (log + [event.value])[..|log|] == log;
    }
  }

  /** The handler is about to tell Aspin about this row and this status. */
  function AboutToNotify(h: Handler): Option<(Row, string)> {
    match h
    case Callback(_, _, _, pc) => if pc.AwaitNotify? then Some((pc.row, pc.status)) else None
    case Check(_, pc) => if pc.AwaitCheckNotify? then Some((pc.row, pc.word)) else None
    case Initiate(_, _, _) => None
  }

  lemma CallbackNoticeStep(sh: Shared, me: nat, h: Handler, o: Outcome)
    requires h.Callback?
    ensures CallbackStep(sh, me, h, o).shared.notices == sh.notices +
            if h.cpc.AwaitNotify? then [NoticeFor(h.cpc.row, h.cpc.status, o.Ok?)] else []
  {
    hide ExtractTransactionId, BuildCallbackLockKey, RoutingKey, FindById, UpdateWhere, Upsert, ExtractStatusFromCallback,
      AttemptFor, NoticeFor;
  }

  lemma NoticeStep(sh: Shared, me: nat, h: Handler, o: Outcome)
    ensures HandlerStep(sh, me, h, o).shared.notices == sh.notices +
            match AboutToNotify(h) { case Some((row, status)) => [NoticeFor(row, status, o.Ok?)] case None => [] }
  {
    hide CallbackStep, ExtractTransactionId, RoutingKey, FindById, UpdateWhere, Upsert, AttemptFor, NoticeFor;
    if h.Callback? {
      CallbackNoticeStep(sh, me, h, o);
    }
  }

  /** A step logs a notice exactly when the handler stood before one. */
  lemma NoticesAreLogged(sh: Shared, me: nat, h: Handler, n: Stepped, delivered: bool)
    requires Coherent(h) && Shaped(sh, me, h, n)
    ensures AboutToNotify(h).Some? <==> n.event.Some? && IsNotice(n.event.value)
    ensures AboutToNotify(h).Some? ==>
              Tells(NoticeFor(AboutToNotify(h).value.0, AboutToNotify(h).value.1, delivered), n.event.value)
  {
    hide Effects, ReadsTable, ExtractTransactionId, BuildCallbackLockKey, ExtractStatusFromCallback, IsTerminal;
  }

  lemma NoticesAdvance(s: State, i: nat, o: Outcome)
    requires NoticesInStep(s) && AllCoherent(s) && Active(s, i)
    ensures NoticesInStep(Apply(s, Advance(i, o)))
  {
    hide HandlerStep, Shaped, AboutToNotify, NoticeFor, IsNotice, Tells, Coherent;
    var n := ApplyAdvance(s, i, o);
    NoticesAreLogged(s.shared, i, s.handlers[i], n, o.Ok?);
    NoticeStep(s.shared, i, s.handlers[i], o);
    NoticesLogged(s.log, n.event);
  }

  lemma NoticesStep(s: State, l: Label)
    requires NoticesInStep(s) && AllCoherent(s)
    ensures NoticesInStep(Apply(s, l))
  {
    hide HandlerStep, AllCoherent, FindById, Bind, Tells, IsFresh;
    match l
    case Advance(i, o) =>
      if Active(s, i) {
        hide NoticesInStep, Apply;
        NoticesAdvance(s, i, o);
      }
    case Expire(key) => NoticesLogged(s.log, Some(Expired(key)));
    case _ =>
  }

  /** In every reachable state Aspin has been told exactly the notices of the history, in its order. */
  lemma {:induction false} NoticesMatchLog(labels: seq<Label>)
    ensures NoticesInStep(Run(INIT, labels))
    decreases |labels|
  {
    if labels != [] {
      hide Apply, AllCoherent;
      var before := labels[..|labels| - 1];
      NoticesMatchLog(before);
      CoherentThroughout(before);
      NoticesStep(Run(INIT, before), labels[|labels| - 1]);
    }
  }

  // ---------- With an honest hub ----------

  /** The notice says what the hub settled on. */
  predicate IsTrue(n: Notice, settled: map<string, string>) {
    n.transactionId.Some? && IsSettled(settled, n.transactionId.value, n.status)
  }

  ghost predicate NoticesTrue(s: State) {
    forall k :: 0 <= k < |s.shared.notices| ==> IsTrue(s.shared.notices[k], s.settled)
  }

  lemma NextNoticeTrue(h: Handler, delivered: bool, settled: map<string, string>)
    requires Coherent(h) && HandlerAgrees(h, settled) && AboutToNotify(h).Some?
    requires forall id :: id in settled ==> IsTerminal(settled[id])
    ensures IsTrue(NoticeFor(AboutToNotify(h).value.0, AboutToNotify(h).value.1, delivered), settled)
  {
    hide ExtractTransactionId, ExtractStatusFromCallback, BuildCallbackLockKey;
  }

  lemma NoticesTrueAdvance(s: State, i: nat, o: Outcome)
    requires NoticesTrue(s) && AllCoherent(s) && Agreement(s) && Active(s, i)
    ensures NoticesTrue(Apply(s, Advance(i, o)))
  {
    hide HandlerStep, AboutToNotify, NoticeFor, IsTrue, Coherent, HandlerAgrees, WellFormed, RowAgrees, IsTerminal;
    NoticeStep(s.shared, i, s.handlers[i], o);
    if AboutToNotify(s.handlers[i]).Some? {
      NextNoticeTrue(s.handlers[i], o.Ok?, s.settled);
    }
  }

  lemma NoticesTrueStep(s: State, l: Label)
    requires NoticesTrue(s) && AllCoherent(s) && Agreement(s)
    ensures NoticesTrue(Apply(s, l))
  {
    hide HandlerStep, AllCoherent, Agreement, FindById, Bind, IsFresh;
    match l
    case Advance(i, o) =>
      if Active(s, i) {
        hide NoticesTrue, Apply;
        NoticesTrueAdvance(s, i, o);
      }
    case _ =>
  }

  /** With an honest hub every notice tells Aspin the hub's own outcome: a payment is reported failed only if it did
      fail, although a pending one would be reported failed too. */
  lemma {:induction false} NoticesAreTrue(labels: seq<Label>)
    requires HonestRun(labels, {PENDING})
    ensures NoticesTrue(Run(INIT, labels))
    decreases |labels|
  {
    hide Apply, HonestLabel, AllCoherent, Agreement;
    if labels != [] {
      var before := labels[..|labels| - 1];
      HonestLast(labels, {PENDING});
      NoticesAreTrue(before);
      CoherentThroughout(before);
      AgreementThroughout(before);
      NoticesTrueStep(Run(INIT, before), labels[|labels| - 1]);
    }
  }
}
