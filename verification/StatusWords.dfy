/** With a gateway that answers in the three words, nothing else is ever stored. */
module StatusWords {
  import opened PaymentDomain
  import opened PaymentTable
  import opened World
  import opened Protocol
  import opened ControlFlow
  import opened GatewayAgreement

  predicate ThreeWordAnswers(labels: seq<Label>) {
    forall k :: 0 <= k < |labels| && labels[k].Advance? && labels[k].outcome.Answer? && labels[k].outcome.word.Some? ==>
      IsThreeWord(labels[k].outcome.word.value)
  }

  /** Every word the handler may still write is one of the three. */
  predicate SpeaksThreeWords(h: Handler) {
    && (h.Callback? && h.cpc.AwaitUpdate? ==> IsThreeWord(h.cpc.status))
    && (h.Check? && h.spc.AwaitStore? ==> IsThreeWord(h.spc.word))
  }

  ghost predicate ThreeWords(s: State) {
    && (forall r :: r in s.shared.rows ==> IsThreeWord(s.shared.rows[r].status))
    && (forall i :: 0 <= i < |s.handlers| ==> SpeaksThreeWords(s.handlers[i]))
  }

  lemma NextWord(sh: Shared, me: nat, h: Handler, o: Outcome, n: Stepped)
    requires SpeaksThreeWords(h) && n == HandlerStep(sh, me, h, o) && Shaped(sh, me, h, n)
    requires o.Answer? && o.word.Some? ==> IsThreeWord(o.word.value)
    ensures SpeaksThreeWords(n.handler)
  {
    OutcomeUsed(sh, me, h, o);
    hide HandlerStep, Effects, ExtractTransactionId, BuildCallbackLockKey, FindById, IsTerminal, Normalise;
  }

  lemma WritesSpeakThreeWords(me: nat, h: Handler, n: Stepped)
    requires SpeaksThreeWords(h) && Moves(me, h, n.handler, n.event)
    ensures n.event.Some? && n.event.value.Did? && (n.event.value.act.WroteCallback? || n.event.value.act.WroteCheck?) ==>
              IsThreeWord(n.event.value.act.status)
  {
    hide ExtractTransactionId, BuildCallbackLockKey, IsTerminal;
  }

  lemma RowsStayThreeWords(sh: Shared, me: nat, h: Handler, n: Stepped)
    requires forall r :: r in sh.rows ==> IsThreeWord(sh.rows[r].status)
    requires SpeaksThreeWords(h) && Shaped(sh, me, h, n)
    ensures forall r :: r in n.shared.rows ==> IsThreeWord(n.shared.rows[r].status)
  {
    WritesSpeakThreeWords(me, h, n);
    hide Moves, ReadsTable, SpeaksThreeWords, IsTerminal;
  }

  lemma ThreeWordsStep(s: State, l: Label)
    requires ThreeWords(s)
    requires l.Advance? && l.outcome.Answer? && l.outcome.word.Some? ==> IsThreeWord(l.outcome.word.value)
    ensures ThreeWords(Apply(s, l))
  {
    hide HandlerStep, Shaped, IsThreeWord, SpeaksThreeWords, FindById;
    match l
    case Spawn(h) => FreshSpeaks(h);
    case Advance(i, o) =>
      if Active(s, i) {
        var n := ApplyAdvance(s, i, o);
        NextWord(s.shared, i, s.handlers[i], o, n);
        RowsStayThreeWords(s.shared, i, s.handlers[i], n);
      }
    case _ =>
  }

  lemma FreshSpeaks(h: Handler)
    ensures IsFresh(h) ==> SpeaksThreeWords(h)
  {
  }

  /** Every row of every reachable state has one of the three statuses. */
  lemma {:induction false} StoredStatusesAreThreeWords(labels: seq<Label>)
    requires ThreeWordAnswers(labels)
    ensures ThreeWords(Run(INIT, labels))
    decreases |labels|
  {
    hide Apply, ThreeWords, IsThreeWord;
    if labels != [] {
      StoredStatusesAreThreeWords(labels[..|labels| - 1]);
      ThreeWordsStep(Run(INIT, labels[..|labels| - 1]), labels[|labels| - 1]);
    } else {
      assert ThreeWords(INIT) by { NoRowsNoWords(); }
    }
  }

  lemma NoRowsNoWords()
    ensures ThreeWords(INIT)
  {
  }
}
