/** What was given at initiation is what is published and returned, whatever the gateway or the webhook says. */
module Identity {
  import opened Wrappers
  import opened PaymentDomain
  import opened PaymentTable
  import opened World
  import opened Protocol
  import opened ControlFlow
  import opened Coherence
  import opened Lookups
  import opened RowLife

  /** `create` never found a row of this reference. */
  ghost predicate NeverRecreated(log: seq<Event>, reference: string) {
    forall e :: e in log && e.Created? && e.reference == reference ==> e.prior.None?
  }

  /** The handler is about to publish this row with this status. */
  function AboutToPublish(h: Handler): Option<(Row, string)> {
    match h
    case Callback(_, _, _, pc) => if pc.AwaitPublish? then Some((pc.row, pc.status)) else None
    case Check(_, pc) => if pc.AwaitCheckPublish? then Some((pc.row, pc.word)) else None
    case Initiate(_, _, _) => None
  }

  lemma BrokerStep(sh: Shared, me: nat, h: Handler, o: Outcome)
    ensures HandlerStep(sh, me, h, o).shared.broker == sh.broker +
            match AboutToPublish(h) { case Some((row, status)) => [AttemptFor(row, status, o.Ok?)] case None => [] }
  {
    hide ExtractTransactionId, BuildCallbackLockKey, RoutingKey, FindById, UpdateWhere, Upsert, ExtractStatusFromCallback,
      AttemptFor, NoticeFor;
    if h.Callback? {
      CallbackBrokerStep(sh, me, h, o);
    }
  }

  lemma CallbackBrokerStep(sh: Shared, me: nat, h: Handler, o: Outcome)
    requires h.Callback?
    ensures CallbackStep(sh, me, h, o).shared.broker == sh.broker +
            if h.cpc.AwaitPublish? then [AttemptFor(h.cpc.row, h.cpc.status, o.Ok?)] else []
  {
    hide ExtractTransactionId, BuildCallbackLockKey, RoutingKey, FindById, UpdateWhere, Upsert, ExtractStatusFromCallback,
      AttemptFor, NoticeFor;
  }

  /** The attempt's event has the facts of this row, and its routing key spells out its own status and partner. */
  predicate Describes(a: Attempt, row: Row) {
    && a.event.transactionId == row.transactionId
    && a.event.reference == row.reference
    && a.event.partnerId == row.partnerId
    && a.event.channel == row.channel
    && a.event.customerId == row.customerId
    && a.event.amount == row.amount
    && a.event.currency == row.currency
    && a.routingKey == "payment." + a.event.status + "." + row.partnerId
  }

  lemma AttemptsDescribe(row: Row, status: string, accepted: bool)
    requires IsThreeWord(status)
    ensures Describes(AttemptFor(row, status, accepted), row)
    ensures AttemptFor(row, status, accepted).event.status == status
  {
    RoutingKeySpellsStatus(status, row.partnerId);
    hide RoutingKey;
  }

  /** The same columns, except for the two that the protocol writes. */
  predicate SameFacts(a: Row, b: Row) {
    SameIdentity(a, b) && a.transactionId == b.transactionId
  }

  ghost predicate CarriedRowsCurrent(s: State, reference: string) {
    forall i :: 0 <= i < |s.handlers| && RowIn(s.handlers[i]).Some? && RowIn(s.handlers[i]).value.reference == reference ==>
      reference in s.shared.rows && SameFacts(RowIn(s.handlers[i]).value, s.shared.rows[reference])
  }

  ghost predicate AttemptsCurrent(s: State, reference: string) {
    forall a :: a in s.shared.broker && a.event.reference == reference ==>
      reference in s.shared.rows && Describes(a, s.shared.rows[reference]) && IsThreeWord(a.event.status) &&
      a.event.transactionId.Some?
  }

  ghost predicate Current(s: State, reference: string) {
    WellFormed(s.shared.rows) && AllCoherent(s) && CarriedRowsCurrent(s, reference) && AttemptsCurrent(s, reference)
  }

  predicate FactsFollow(before: Row, after: Row) {
    SameIdentity(before, after) && (before.transactionId.Some? ==> SameFacts(before, after))
  }

  lemma FactsReflexive(row: Row)
    ensures FactsFollow(row, row)
  {
  }

  lemma FactsAdvance(rows: Table, h: Handler, event: Option<Event>, reference: string)
    requires reference in rows
    requires event.Some? && event.value.Created? && h.Initiate? ==> h.request.reference != reference
    ensures reference in RowsAfter(rows, h, event) && FactsFollow(rows[reference], RowsAfter(rows, h, event)[reference])
  {
  }

  lemma BindFacts(rows: Table, bound: string, id: string, reference: string)
    requires reference in rows && bound in rows && rows[bound].transactionId.None?
    ensures reference in Bind(rows, bound, id) && FactsFollow(rows[reference], Bind(rows, bound, id)[reference])
  {
  }

  /** A row that has a transaction id keeps all its facts; a row that has none can only gain one. */
  lemma FactsKept(s: State, l: Label, reference: string)
    requires NeverRecreated(Apply(s, l).log, reference) && reference in s.shared.rows
    ensures reference in Apply(s, l).shared.rows
    ensures FactsFollow(s.shared.rows[reference], Apply(s, l).shared.rows[reference])
  {
    hide HandlerStep, Moves, ReadsTable, FindById, BuildCallbackLockKey, ExtractTransactionId, RowsAfter, Bind, FactsFollow;
    FactsReflexive(s.shared.rows[reference]);
    match l
    case Advance(i, o) =>
      if Active(s, i) {
        var n := ApplyAdvance(s, i, o);
        InitiateEvent(s.shared, i, s.handlers[i], n);
        assert n.event.Some? ==> n.event.value in Apply(s, l).log;
        FactsAdvance(s.shared.rows, s.handlers[i], n.event, reference);
      }
    case BindId(bound, id) =>
      if bound in s.shared.rows && s.shared.rows[bound].transactionId.None? {
        BindFacts(s.shared.rows, bound, id, reference);
      }
    case _ =>
  }

  lemma InitiateEvent(sh: Shared, me: nat, h: Handler, n: Stepped)
    requires Shaped(sh, me, h, n)
    ensures n.event.Some? && n.event.value.Created? ==> h.Initiate? && n.event.value.reference == h.request.reference
  {
  }

  lemma CarriedAdvance(s: State, i: nat, n: Stepped, t: State, reference: string)
    requires Current(s, reference) && i < |s.handlers| && Shaped(s.shared, i, s.handlers[i], n)
    requires t.handlers == s.handlers[i := n.handler] && Coherent(n.handler)
    requires reference in s.shared.rows ==>
               (reference in t.shared.rows && FactsFollow(s.shared.rows[reference], t.shared.rows[reference]))
    ensures CarriedRowsCurrent(t, reference)
  {
    hide Moves, Effects, SameFacts, Coherent;
    forall j | 0 <= j < |t.handlers| && RowIn(t.handlers[j]).Some? && RowIn(t.handlers[j]).value.reference == reference
      ensures reference in t.shared.rows && SameFacts(RowIn(t.handlers[j]).value, t.shared.rows[reference])
    {
      var row := RowIn(t.handlers[j]).value;
      CarriedRowsHaveIds(t.handlers[j]);
      if j == i && RowIn(s.handlers[i]).None? {
        assert FindById(s.shared.rows, s.handlers[i].Id()) == Some(row);
        var r :| r in s.shared.rows && s.shared.rows[r] == row;
        assert r == reference;
        FactsAreTransitive(row, row, t.shared.rows[reference]);
      } else {
        assert RowIn(s.handlers[j]) == Some(row);
        FactsAreTransitive(row, s.shared.rows[reference], t.shared.rows[reference]);
      }
    }
  }

  lemma CarriedRowsHaveIds(h: Handler)
    requires RowIn(h).Some?
    ensures Coherent(h) ==> HasId(RowIn(h).value, h.Id())
  {
    hide ExtractTransactionId, ExtractStatusFromCallback;
  }

  lemma FactsAreTransitive(a: Row, b: Row, c: Row)
    ensures SameFacts(a, a)
    ensures SameFacts(a, b) && SameFacts(b, c) ==> SameFacts(a, c)
    ensures SameFacts(a, b) ==> a.transactionId == b.transactionId
  {
  }

  lemma AttemptsAdvance(s: State, h: Handler, o: Outcome, broker: seq<Attempt>, t: State, reference: string)
    requires AttemptsCurrent(s, reference) && CarriedRowsCurrent(s, reference) && h in s.handlers && Coherent(h)
    requires broker == s.shared.broker +
             match AboutToPublish(h) { case Some((row, status)) => [AttemptFor(row, status, o.Ok?)] case None => [] }
    requires t.shared.broker == broker
    requires reference in s.shared.rows ==>
               (reference in t.shared.rows && FactsFollow(s.shared.rows[reference], t.shared.rows[reference]))
    ensures AttemptsCurrent(t, reference)
  {
    hide RoutingKey, FindById, ExtractTransactionId;
    if AboutToPublish(h).Some? {
      CarriedRowsHaveIds(h);
      PublishedStatus(h);
      AttemptsDescribe(AboutToPublish(h).value.0, AboutToPublish(h).value.1, o.Ok?);
      var i :| 0 <= i < |s.handlers| && s.handlers[i] == h;
    }
  }

  /** Only the three words are ever published. */
  lemma PublishedStatus(h: Handler)
    requires Coherent(h) && AboutToPublish(h).Some?
    ensures IsThreeWord(AboutToPublish(h).value.1) && RowIn(h) == Some(AboutToPublish(h).value.0)
  {
    hide ExtractTransactionId;
  }

  lemma CurrentAdvance(s: State, i: nat, o: Outcome, reference: string)
    requires Current(s, reference) && Active(s, i) && NeverRecreated(Apply(s, Advance(i, o)).log, reference)
    ensures Current(Apply(s, Advance(i, o)), reference)
  {
    hide HandlerStep, Shaped, Coherent, FactsFollow, WellFormed, CarriedRowsCurrent, AttemptsCurrent, AboutToPublish;
    var l := Advance(i, o);
    var n := ApplyAdvance(s, i, o);
    RowStep(s, l, "");
    CoherentStep(s, l);
    if reference in s.shared.rows {
      FactsKept(s, l, reference);
    }
    assert Coherent(Apply(s, l).handlers[i]);
    CarriedAdvance(s, i, n, Apply(s, l), reference);
    BrokerStep(s.shared, i, s.handlers[i], o);
    AttemptsAdvance(s, s.handlers[i], o, n.shared.broker, Apply(s, l), reference);
  }

  /** A label that is not a handler's step changes no carried row and no attempt. */
  lemma OthersCarryNothingNew(s: State, l: Label)
    requires !l.Advance?
    ensures var t := Apply(s, l);
            && t.shared.broker == s.shared.broker
            && |s.handlers| <= |t.handlers|
            && (forall j :: 0 <= j < |s.handlers| ==> t.handlers[j] == s.handlers[j])
            && (forall j :: |s.handlers| <= j < |t.handlers| ==> RowIn(t.handlers[j]).None?)
  {
    hide IsFresh, RowIn, FindById, Bind;
    if l.Spawn? && IsFresh(l.handler) {
      FreshCarriesNothing(l.handler);
    }
  }

  lemma CurrentOther(s: State, l: Label, reference: string)
    requires Current(s, reference) && !l.Advance? && NeverRecreated(Apply(s, l).log, reference)
    ensures Current(Apply(s, l), reference)
  {
    var t := Apply(s, l);
    OthersCarryNothingNew(s, l);
    RowStep(s, l, "");
    CoherentStep(s, l);
    if reference in s.shared.rows {
      FactsKept(s, l, reference);
    }
    hide Apply, WellFormed, Coherent, RowIn, FindById, FactsFollow, SameFacts, Describes, IsThreeWord;
    forall j | 0 <= j < |t.handlers| && RowIn(t.handlers[j]).Some? && RowIn(t.handlers[j]).value.reference == reference
      ensures reference in t.shared.rows && SameFacts(RowIn(t.handlers[j]).value, t.shared.rows[reference])
    {
      assert j < |s.handlers| && t.handlers[j] == s.handlers[j];
      CarriedRowsHaveIds(s.handlers[j]);
      FactsCarryOver(RowIn(s.handlers[j]).value, s.shared.rows[reference], t.shared.rows[reference]);
    }
    forall a | a in t.shared.broker && a.event.reference == reference
      ensures Describes(a, t.shared.rows[reference])
    {
      DescriptionsCarryOver(a, s.shared.rows[reference], t.shared.rows[reference]);
    }
  }

  lemma FactsCarryOver(row: Row, before: Row, after: Row)
    requires row.transactionId.Some? && SameFacts(row, before) && FactsFollow(before, after)
    ensures SameFacts(row, after)
  {
  }

  lemma DescriptionsCarryOver(a: Attempt, before: Row, after: Row)
    requires a.event.transactionId.Some? && Describes(a, before) && FactsFollow(before, after)
    ensures Describes(a, after)
  {
    hide RoutingKey;
  }

  lemma FreshCarriesNothing(h: Handler)
    requires IsFresh(h)
    ensures RowIn(h).None?
  {
  }

  lemma {:induction false} CurrentThroughout(labels: seq<Label>, reference: string)
    requires NeverRecreated(Run(INIT, labels).log, reference)
    ensures Current(Run(INIT, labels), reference)
    decreases |labels|
  {
    if labels != [] {
      hide Apply, Current;
      var before, l := labels[..|labels| - 1], labels[|labels| - 1];
      var s := Run(INIT, before);
      LogGrows(s, l);
      assert NeverRecreated(s.log, reference);
      CurrentThroughout(before, reference);
      if l.Advance? && !Active(s, l.who) {
        IdleAdvance(s, l);
      } else if l.Advance? {
        CurrentAdvance(s, l.who, l.outcome, reference);
      } else {
        CurrentOther(s, l, reference);
      }
    } else {
      assert Run(INIT, labels) == INIT;
    }
  }

  lemma IdleAdvance(s: State, l: Label)
    requires l.Advance? && !Active(s, l.who)
    ensures Apply(s, l) == s
  {
  }

  lemma LogGrows(s: State, l: Label)
    ensures s.log <= Apply(s, l).log
  {
    hide HandlerStep;
  }

  // ---------- Where rows come from ----------

  /** The row holds what an initiation asked for. */
  predicate Fulfils(row: Row, h: Handler) {
    && h.Initiate?
    && row.reference == h.request.reference
    && row.partnerId == h.request.partnerId
    && row.channel == h.channel
    && row.customerId == h.request.customerId
    && row.phoneNumber == h.request.customerId
    && row.gateway == h.channel
    && row.amount == h.request.amount
    && row.currency == h.request.currency
  }

  ghost predicate RowsWereRequested(s: State) {
    forall r :: r in s.shared.rows ==> exists i :: 0 <= i < |s.handlers| && Fulfils(s.shared.rows[r], s.handlers[i])
  }

  lemma FulfilsFollows(before: Row, after: Row, h: Handler)
    requires FactsFollow(before, after) && Fulfils(before, h)
    ensures Fulfils(after, h)
  {
  }

  lemma CreatedFulfils(rows: Table, h: Handler)
    requires h.Initiate?
    ensures Fulfils(Upsert(rows, NewRow(h.request, h.channel))[h.request.reference], h)
  {
  }

  lemma RequestedAdvance(s: State, i: nat, n: Stepped)
    requires RowsWereRequested(s) && i < |s.handlers| && Shaped(s.shared, i, s.handlers[i], n)
    ensures RowsWereRequested(s.(shared := n.shared, handlers := s.handlers[i := n.handler], log := Logged(s.log, n.event)))
  {
    var h, hs := s.handlers[i], s.handlers[i := n.handler];
    InitiateMoves(s.shared, i, h, n);
    forall r | r in n.shared.rows
      ensures exists j :: 0 <= j < |hs| && Fulfils(n.shared.rows[r], hs[j])
    {
      RequestedRow(s, i, n, r);
      var j :| 0 <= j < |s.handlers| && Fulfils(n.shared.rows[r], s.handlers[j]);
      assert Fulfils(n.shared.rows[r], hs[j]);
    }
  }

  lemma RequestedRow(s: State, i: nat, n: Stepped, r: string)
    requires RowsWereRequested(s) && i < |s.handlers| && Shaped(s.shared, i, s.handlers[i], n) && r in n.shared.rows
    ensures exists j :: 0 <= j < |s.handlers| && Fulfils(n.shared.rows[r], s.handlers[j])
  {
    var h := s.handlers[i];
    InitiateMoves(s.shared, i, h, n);
    hide Moves, ReadsTable, FactsFollow, Fulfils, NewRow, Handler.Key;
    if h.Initiate? && r == h.request.reference && n.event.Some? && n.event.value.Created? {
      CreatedFulfils(s.shared.rows, h);
    } else {
      RowsBefore(s.shared.rows, h, n.event, r);
      FactsAdvance(s.shared.rows, h, n.event, r);
      var j :| 0 <= j < |s.handlers| && Fulfils(s.shared.rows[r], s.handlers[j]);
      FulfilsFollows(s.shared.rows[r], n.shared.rows[r], s.handlers[j]);
    }
  }

  lemma RowsBefore(rows: Table, h: Handler, event: Option<Event>, r: string)
    requires r in RowsAfter(rows, h, event)
    ensures r in rows || (h.Initiate? && r == h.request.reference && event.Some? && event.value.Created?)
  {
  }

  lemma InitiateMoves(sh: Shared, me: nat, h: Handler, n: Stepped)
    requires Shaped(sh, me, h, n)
    ensures h.Initiate? ==> n.handler.Initiate? && n.handler.request == h.request && n.handler.channel == h.channel
    ensures n.event.Some? && n.event.value.Created? ==> h.Initiate?
  {
  }

  lemma RequestedStep(s: State, l: Label)
    requires RowsWereRequested(s)
    ensures RowsWereRequested(Apply(s, l))
  {
    hide HandlerStep, Shaped, FindById, IsFresh, RowsWereRequested;
    if l.Advance? && Active(s, l.who) {
      var n := ApplyAdvance(s, l.who, l.outcome);
      RequestedAdvance(s, l.who, n);
    } else {
      RequestedOther(s, l);
    }
  }

  lemma RequestedOther(s: State, l: Label)
    requires RowsWereRequested(s) && (l.Advance? ==> !Active(s, l.who))
    ensures RowsWereRequested(Apply(s, l))
  {
    var t := Apply(s, l);
    OthersKeepHandlers(s, l);
    forall r | r in t.shared.rows
      ensures exists j :: 0 <= j < |t.handlers| && Fulfils(t.shared.rows[r], t.handlers[j])
    {
      RequestedElsewhere(s, l, r);
      hide Apply, Fulfils;
      var j :| 0 <= j < |s.handlers| && Fulfils(t.shared.rows[r], s.handlers[j]);
      assert t.handlers[j] == s.handlers[j];
    }
  }

  lemma OthersKeepHandlers(s: State, l: Label)
    requires l.Advance? ==> !Active(s, l.who)
    ensures |s.handlers| <= |Apply(s, l).handlers|
    ensures forall j :: 0 <= j < |s.handlers| ==> Apply(s, l).handlers[j] == s.handlers[j]
  {
    hide IsFresh, FindById, HandlerStep;
  }

  lemma RequestedElsewhere(s: State, l: Label, r: string)
    requires RowsWereRequested(s) && r in Apply(s, l).shared.rows && (l.Advance? ==> !Active(s, l.who))
    ensures exists j :: 0 <= j < |s.handlers| && Fulfils(Apply(s, l).shared.rows[r], s.handlers[j])
  {
    hide Fulfils, FindById, FactsFollow, IsFresh, HandlerStep;
    var rows := s.shared.rows;
    if l.BindId? && l.reference in rows && rows[l.reference].transactionId.None? && FindById(rows, l.id).None? {
      BindFacts(rows, l.reference, l.id, r);
      var j :| 0 <= j < |s.handlers| && Fulfils(rows[r], s.handlers[j]);
      FulfilsFollows(rows[r], Bind(rows, l.reference, l.id)[r], s.handlers[j]);
    }
  }

  lemma {:induction false} RequestedThroughout(labels: seq<Label>)
    ensures RowsWereRequested(Run(INIT, labels))
    decreases |labels|
  {
    if labels != [] {
      hide Apply;
      RequestedThroughout(labels[..|labels| - 1]);
      RequestedStep(Run(INIT, labels[..|labels| - 1]), labels[|labels| - 1]);
    }
  }

  // ---------- The theorems ----------

  /** Every publish attempt for a reference that was created once describes the current row of that reference, carries
      one of the three words and a routing key from which the word and the partner can be read back, and the row holds
      exactly the amount, currency, partner, channel and customer of an initiation. */
  lemma PublishedFactsAreInitiated(labels: seq<Label>, a: Attempt)
    requires a in Run(INIT, labels).shared.broker && NeverRecreated(Run(INIT, labels).log, a.event.reference)
    ensures var s := Run(INIT, labels);
            && a.event.reference in s.shared.rows
            && Describes(a, s.shared.rows[a.event.reference]) && IsThreeWord(a.event.status)
            && exists i :: 0 <= i < |s.handlers| && Fulfils(s.shared.rows[a.event.reference], s.handlers[i])
  {
    hide Run, Describes, Fulfils;
    CurrentThroughout(labels, a.event.reference);
    RequestedThroughout(labels);
  }

  /** The response of a finished callback or status check, if it returned one. */
  function ResponseOf(h: Handler): Option<Response> {
    match h
    case Callback(_, _, _, pc) =>
      if pc.CallbackDone? && CallbackResult(h.Id(), pc.exit, pc.release).Success?
      then Some(CallbackResult(h.Id(), pc.exit, pc.release).value) else None
    case Check(id, pc) =>
      if pc.CheckDone? && CheckResult(id, pc.exit).Success? then Some(CheckResult(id, pc.exit).value) else None
    case Initiate(_, _, _) => None
  }

  lemma ResponseFromRow(h: Handler)
    requires ResponseOf(h).Some?
    ensures RowIn(h).Some?
    ensures ResponseOf(h).value.transactionId == h.Id()
    ensures ResponseOf(h).value.amount == RowIn(h).value.amount
    ensures ResponseOf(h).value.currency == RowIn(h).value.currency
  {
    hide ExtractTransactionId;
  }

  /** The status in the handler's answer: what its body reported if it wrote, the status of the row it read if it missed
      the lock or found the row processed, and for a status check the word it stored or found stored. */
  predicate AnswersStatus(h: Handler, status: string) {
    match h
    case Callback(_, payload, _, CallbackDone(exit, _)) =>
      (match exit
       case Missed(row) => status == row.status
       case Duplicate(row) => row.processed && status == row.status
       case Processed(_, _) => ReportsStatus(payload, status)
       case _ => false)
    case Check(_, CheckDone(exit)) =>
      (match exit
       case Unchanged(row) => status == row.status
       case Stored(row, word) => status == word != row.status
       case Announced(row, word) => status == word != row.status
       case _ => false)
    case _ => false
  }

  lemma ResponseStatus(h: Handler)
    requires ResponseOf(h).Some? && Coherent(h)
    ensures AnswersStatus(h, ResponseOf(h).value.status)
  {
    if h.Callback? {
      StatusComesFromFields(h.payload, ExtractStatusFromCallback(h.payload));
    }
    hide ExtractTransactionId, ExtractStatusFromCallback, ReportsStatus;
  }

  /** Every response carries the status that `AnswersStatus` says. It is about a transaction that has a row, and if that
      row was created once, the response carries its amount and currency, which are those of an initiation. */
  lemma ResponsesAreInitiated(labels: seq<Label>, i: nat)
    requires i < |Run(INIT, labels).handlers| && ResponseOf(Run(INIT, labels).handlers[i]).Some?
    ensures var s := Run(INIT, labels);
            var response := ResponseOf(s.handlers[i]).value;
            var found := FindById(s.shared.rows, response.transactionId);
            && AnswersStatus(s.handlers[i], response.status)
            && found.Some?
            && (NeverRecreated(s.log, found.value.reference) ==>
                  && response.amount == found.value.amount && response.currency == found.value.currency
                  && exists j :: 0 <= j < |s.handlers| && Fulfils(found.value, s.handlers[j]))
  {
    var s := Run(INIT, labels);
    var h := s.handlers[i];
    hide Run, Fulfils, ExtractTransactionId, ResponseOf, Coherent, RowIn, FindById, WellFormed, AttemptsCurrent, AnswersStatus;
    CoherentThroughout(labels);
    assert Coherent(h);
    ResponseStatus(h);
    SnapshotsFind(labels);
    ResponseFromRow(h);
    assert Finds(FindById(s.shared.rows, h.Id()), h);
    var found := FindById(s.shared.rows, h.Id()).value;
    if NeverRecreated(s.log, found.reference) {
      CurrentThroughout(labels, found.reference);
      RequestedThroughout(labels);
      FoundAtItsReference(s.shared.rows, h.Id());
    }
  }

  lemma FoundAtItsReference(rows: Table, id: string)
    requires WellFormed(rows) && FindById(rows, id).Some?
    ensures var row := FindById(rows, id).value; row.reference in rows && rows[row.reference] == row
  {
  }

  lemma FactsFollowOn(a: Row, b: Row, c: Row)
    requires a.transactionId.Some? && SameFacts(a, b) && FactsFollow(b, c)
    ensures SameFacts(a, c)
  {
  }

  /** A bound row that is not created again keeps its facts in every continuation. */
  lemma {:induction false} FactsArePermanent(s: State, labels: seq<Label>, reference: string)
    requires reference in s.shared.rows && s.shared.rows[reference].transactionId.Some?
    requires NeverRecreated(Run(s, labels).log, reference)
    ensures s.log <= Run(s, labels).log
    ensures reference in Run(s, labels).shared.rows
    ensures SameFacts(s.shared.rows[reference], Run(s, labels).shared.rows[reference])
    decreases |labels|
  {
    hide Apply, FactsFollow, SameFacts;
    if labels == [] {
      FactsAreTransitive(s.shared.rows[reference], s.shared.rows[reference], s.shared.rows[reference]);
    } else {
      var before := labels[..|labels| - 1];
      var mid := Run(s, before);
      LogGrows(mid, labels[|labels| - 1]);
      assert NeverRecreated(mid.log, reference);
      FactsArePermanent(s, before, reference);
      FactsKept(mid, labels[|labels| - 1], reference);
      FactsFollowOn(s.shared.rows[reference], mid.shared.rows[reference], Run(s, labels).shared.rows[reference]);
    }
  }
}
