/** Unlocked status checks and callbacks write the same row. When the payment hub never changes its mind, the row
    never leaves the final status, because a status check reads the row before it asks the hub. */
module GatewayAgreement {
  import opened Wrappers
  import opened PaymentDomain
  import opened PaymentTable
  import opened World
  import opened Protocol
  import opened ControlFlow
  import opened RowLife

  /** What an honest hub may do next: answer a query with its settled outcome, or with one of the words in `unsettled`
      while it has none, and sign a callback only once it has an outcome, and with that outcome. */
  ghost predicate HonestLabel(s: State, l: Label, unsettled: set<string>) {
    match l
    case Advance(i, o) =>
      Active(s, i) ==>
        var h := s.handlers[i];
        && (h.Check? && h.spc.AwaitQuery? && o.Answer? && o.word.Some? ==>
              if h.id in s.settled then o.word.value == s.settled[h.id] else o.word.value in unsettled)
        && (h.Callback? && h.cpc.AwaitConfig? && o.Ok? ==>
              h.Id() in s.settled && ExtractStatusFromCallback(h.payload) == s.settled[h.Id()])
    case _ => true
  }

  ghost predicate HonestFrom(s: State, labels: seq<Label>, unsettled: set<string>) {
    forall k :: 0 <= k < |labels| ==> HonestLabel(Run(s, labels[..k]), labels[k], unsettled)
  }

  ghost predicate HonestRun(labels: seq<Label>, unsettled: set<string>) {
    HonestFrom(INIT, labels, unsettled)
  }

  lemma HonestPrefix(a: seq<Label>, b: seq<Label>, unsettled: set<string>)
    requires HonestRun(a + b, unsettled)
    ensures HonestRun(a, unsettled)
  {
    forall k | 0 <= k < |a|
      ensures HonestLabel(Run(INIT, a[..k]), a[k], unsettled)
    {
      assert (a + b)[..k] == a[..k] && (a + b)[k] == a[k];
    }
  }

  lemma HonestLast(labels: seq<Label>, unsettled: set<string>)
    requires labels != [] && HonestRun(labels, unsettled)
    ensures var before := labels[..|labels| - 1];
            HonestRun(before, unsettled) && HonestLabel(Run(INIT, before), labels[|labels| - 1], unsettled)
  {
    assert labels == labels[..|labels| - 1] + [labels[|labels| - 1]];
    HonestPrefix(labels[..|labels| - 1], [labels[|labels| - 1]], unsettled);
  }

  /** `status` is what the hub settled on for `id`. */
  predicate IsSettled(settled: map<string, string>, id: string, status: string) {
    id in settled && settled[id] == status
  }

  predicate RowAgrees(row: Row, settled: map<string, string>) {
    row.status == PENDING || (row.transactionId.Some? && IsSettled(settled, row.transactionId.value, row.status))
  }

  /** The statuses a handler is about to write, or has written. */
  predicate HandlerAgrees(h: Handler, settled: map<string, string>) {
    match h
    case Callback(_, _, _, pc) =>
      (match pc
       case AwaitUpdate(_, status) => IsSettled(settled, h.Id(), status)
       case AwaitPublish(_, status) => IsSettled(settled, h.Id(), status)
       case AwaitNotify(_, status) => IsSettled(settled, h.Id(), status)
       case AwaitRelease(exit) => ExitAgrees(exit, settled, h.Id())
       case CallbackDone(exit, _) => ExitAgrees(exit, settled, h.Id())
       case _ => true)
    case Check(id, pc) =>
      (match pc
       case AwaitFind => true
       case AwaitQuery(row) => HasId(row, id) && RowAgrees(row, settled)
       case AwaitStore(row, word) => row.status == PENDING && IsSettled(settled, id, word)
       case AwaitCheckPublish(row, word) => row.status == PENDING && IsSettled(settled, id, word)
       case AwaitCheckNotify(row, word) => row.status == PENDING && IsSettled(settled, id, word)
       case CheckDone(exit) =>
         exit.StoreFailed? || exit.Stored? || exit.Announced? ==>
           exit.row.status == PENDING && IsSettled(settled, id, exit.word))
    case Initiate(_, _, _) => true
  }

  predicate ExitAgrees(exit: Exit, settled: map<string, string>, id: string) {
    exit.Processed? || exit.UpdateFailed? ==> IsSettled(settled, id, exit.status)
  }

  ghost predicate Agreement(s: State) {
    && WellFormed(s.shared.rows)
    && (forall id :: id in s.settled ==> IsTerminal(s.settled[id]))
    && (forall r :: r in s.shared.rows ==> RowAgrees(s.shared.rows[r], s.settled))
    && (forall i :: 0 <= i < |s.handlers| ==> HandlerAgrees(s.handlers[i], s.settled))
  }

  /** The only outcomes that lead on from a query and from the signature check. */
  lemma OutcomeUsed(sh: Shared, me: nat, h: Handler, o: Outcome)
    ensures var next := HandlerStep(sh, me, h, o).handler;
            && (h.Check? && h.spc.AwaitQuery? && next.spc.AwaitStore? ==> o == Answer(Some(next.spc.word)))
            && (h.Callback? && h.cpc.AwaitConfig? && next.cpc.AwaitUpdate? ==> o.Ok?)
  {
    hide ExtractTransactionId, BuildCallbackLockKey, FindById, UpdateWhere, Upsert, RoutingKey;
  }

  lemma CallbackStaysInAgreement(s: State, i: nat, o: Outcome, n: Stepped)
    requires Agreement(s) && Active(s, i) && HonestLabel(s, Advance(i, o), {PENDING})
    requires Shaped(s.shared, i, s.handlers[i], n) && n == HandlerStep(s.shared, i, s.handlers[i], o)
    requires s.handlers[i].Callback?
    ensures HandlerAgrees(n.handler, s.settled)
  {
    OutcomeUsed(s.shared, i, s.handlers[i], o);
    hide HandlerStep, Effects, ExtractTransactionId, FindById, ExtractStatusFromCallback, WellFormed;
    assert HandlerAgrees(s.handlers[i], s.settled);
  }

  lemma CheckStaysInAgreement(s: State, i: nat, o: Outcome, n: Stepped)
    requires Agreement(s) && Active(s, i) && HonestLabel(s, Advance(i, o), {PENDING})
    requires Shaped(s.shared, i, s.handlers[i], n) && n == HandlerStep(s.shared, i, s.handlers[i], o)
    requires s.handlers[i].Check?
    ensures HandlerAgrees(n.handler, s.settled)
  {
    OutcomeUsed(s.shared, i, s.handlers[i], o);
    hide HandlerStep, Effects, WellFormed;
    var h := s.handlers[i];
    assert HandlerAgrees(h, s.settled);
    if h.spc.AwaitFind? && n.handler.spc.AwaitQuery? {
      var r :| r in s.shared.rows && s.shared.rows[r] == FindById(s.shared.rows, h.id).value;
      assert RowAgrees(s.shared.rows[r], s.settled);
    }
  }

  /** An event's write, if it is one, writes the settled outcome. */
  lemma WritesAgree(me: nat, h: Handler, n: Stepped, settled: map<string, string>)
    requires HandlerAgrees(h, settled) && Moves(me, h, n.handler, n.event)
    ensures n.event.Some? && n.event.value.Did? &&
            (n.event.value.act.WroteCallback? || n.event.value.act.WroteCheck?) ==>
              IsSettled(settled, n.event.value.id, n.event.value.act.status)
  {
    hide ExtractTransactionId;
  }

  lemma RowsStayInAgreement(sh: Shared, me: nat, h: Handler, n: Stepped, settled: map<string, string>)
    requires forall r :: r in sh.rows ==> RowAgrees(sh.rows[r], settled)
    requires HandlerAgrees(h, settled) && Shaped(sh, me, h, n)
    ensures forall r :: r in n.shared.rows ==> RowAgrees(n.shared.rows[r], settled)
  {
    WritesAgree(me, h, n, settled);
    hide Moves, ReadsTable, HandlerAgrees;
  }

  lemma AgreementAdvance(s: State, i: nat, o: Outcome)
    requires Agreement(s) && Active(s, i) && HonestLabel(s, Advance(i, o), {PENDING})
    ensures Agreement(Apply(s, Advance(i, o)))
  {
    hide HandlerStep, Shaped, WellFormed, HandlerAgrees, RowAgrees, HonestLabel;
    var n := ApplyAdvance(s, i, o);
    RowStep(s, Advance(i, o), "");
    RowsStayInAgreement(s.shared, i, s.handlers[i], n, s.settled);
    assert HandlerAgrees(n.handler, s.settled) by {
      if s.handlers[i].Callback? {
        CallbackStaysInAgreement(s, i, o, n);
      } else if s.handlers[i].Check? {
        CheckStaysInAgreement(s, i, o, n);
      } else {
        InitiateAgrees(s, i, n);
      }
    }
  }

  lemma InitiateAgrees(s: State, i: nat, n: Stepped)
    requires i < |s.handlers| && s.handlers[i].Initiate? && Shaped(s.shared, i, s.handlers[i], n)
    ensures HandlerAgrees(n.handler, s.settled)
  {
  }

  lemma SettlingKeepsHandlers(h: Handler, settled: map<string, string>, id: string, word: string)
    requires HandlerAgrees(h, settled) && id !in settled
    ensures HandlerAgrees(h, settled[id := word])
  {
    hide ExtractTransactionId;
  }

  lemma AgreementStep(s: State, l: Label)
    requires Agreement(s) && HonestLabel(s, l, {PENDING})
    ensures Agreement(Apply(s, l))
  {
    hide HandlerStep, HonestLabel, HandlerAgrees, FindById, WellFormed;
    RowStep(s, l, "");
    match l
    case Spawn(h) => FreshAgrees(h, s.settled);
    case Advance(i, o) =>
      if Active(s, i) {
        AgreementAdvance(s, i, o);
      }
    case Settle(id, word) =>
      if id !in s.settled && IsTerminal(word) {
        forall i | 0 <= i < |s.handlers|
          ensures HandlerAgrees(s.handlers[i], s.settled[id := word])
        {
          SettlingKeepsHandlers(s.handlers[i], s.settled, id, word);
        }
      }
    case _ =>
  }

  lemma FreshAgrees(h: Handler, settled: map<string, string>)
    ensures IsFresh(h) ==> HandlerAgrees(h, settled)
  {
  }

  lemma {:induction false} AgreementThroughout(labels: seq<Label>)
    requires HonestRun(labels, {PENDING})
    ensures Agreement(Run(INIT, labels))
    decreases |labels|
  {
    hide Apply, HonestLabel;
    if labels != [] {
      HonestLast(labels, {PENDING});
      AgreementThroughout(labels[..|labels| - 1]);
      AgreementStep(Run(INIT, labels[..|labels| - 1]), labels[|labels| - 1]);
    }
  }
}
