/** `processed` is set whatever a callback reports. For which vocabularies of webhooks and hub does it imply that the
    payment has a final status? */
module ProcessedStatus {
  import opened Wrappers
  import opened PaymentDomain
  import opened PaymentTable
  import opened World
  import opened Protocol
  import opened Coherence
  import opened ControlFlow
  import opened Provenance
  import opened Scenarios
  import opened SoleRuns

  /** Every webhook reports, once normalised, one of `reports`, and every answer of the hub is one of `answers`. */
  predicate Speaks(l: Label, reports: set<string>, answers: set<string>) {
    match l
    case Spawn(h) => h.Callback? ==> ExtractStatusFromCallback(h.payload) in reports
    case Advance(_, o) => o.Answer? && o.word.Some? ==> o.word.value in answers
    case _ => true
  }

  predicate Vocabulary(labels: seq<Label>, reports: set<string>, answers: set<string>) {
    forall k :: 0 <= k < |labels| ==> Speaks(labels[k], reports, answers)
  }

  predicate ProcessedAreFinal(rows: Table) {
    forall r :: r in rows && rows[r].processed ==> IsTerminal(rows[r].status)
  }

  ghost predicate ProcessedMeansFinal(reports: set<string>, answers: set<string>) {
    forall labels :: Vocabulary(labels, reports, answers) ==> ProcessedAreFinal(Run(INIT, labels).shared.rows)
  }

  // ---------- Final words only ----------

  predicate Reports(hs: seq<Handler>, reports: set<string>) {
    forall i :: 0 <= i < |hs| && hs[i].Callback? ==> ExtractStatusFromCallback(hs[i].payload) in reports
  }

  lemma SamePayload(sh: Shared, me: nat, h: Handler, n: Stepped)
    requires Shaped(sh, me, h, n)
    ensures n.handler.Callback? ==> h.Callback? && n.handler.payload == h.payload
  {
    hide CallbackMoves, CheckMoves, Effects, ReadsTable, ExtractTransactionId;
  }

  lemma ReportsStep(s: State, l: Label, reports: set<string>, answers: set<string>)
    requires Reports(s.handlers, reports) && Speaks(l, reports, answers)
    ensures Reports(Apply(s, l).handlers, reports)
  {
    hide HandlerStep, Shaped, ExtractStatusFromCallback, IsFresh, FindById, Bind;
    match l
    case Advance(i, o) =>
      if Active(s, i) {
        var n := ApplyAdvance(s, i, o);
        SamePayload(s.shared, i, s.handlers[i], n);
      }
    case _ =>
  }

  lemma {:induction false} ReportsThroughout(labels: seq<Label>, reports: set<string>, answers: set<string>)
    requires Vocabulary(labels, reports, answers)
    ensures Reports(Run(INIT, labels).handlers, reports)
    decreases |labels|
  {
    hide Apply, Speaks, ExtractStatusFromCallback;
    if labels != [] {
      ReportsThroughout(labels[..|labels| - 1], reports, answers);
      ReportsStep(Run(INIT, labels[..|labels| - 1]), labels[|labels| - 1], reports, answers);
    }
  }

  /** A status check about to store stores a final word. */
  predicate StoresFinal(h: Handler) {
    h.Check? && h.spc.AwaitStore? ==> IsTerminal(h.spc.word)
  }

  ghost predicate FinalSoFar(s: State) {
    ProcessedAreFinal(s.shared.rows) && forall i :: 0 <= i < |s.handlers| ==> StoresFinal(s.handlers[i])
  }

  predicate FinalWordsOnly(reports: set<string>, answers: set<string>) {
    PENDING !in reports && forall a :: a in answers ==> IsTerminal(a)
  }

  lemma QueryAnswers(sh: Shared, me: nat, h: Handler, o: Outcome)
    requires h.Check? && h.spc.AwaitQuery?
    ensures var next := QueryStep(sh, me, h, o).handler;
            next.spc.AwaitStore? ==> o == Answer(Some(next.spc.word))
  {
  }

  lemma NextStoresFinal(sh: Shared, me: nat, h: Handler, o: Outcome, n: Stepped, reports: set<string>, answers: set<string>)
    requires n == HandlerStep(sh, me, h, o) && Shaped(sh, me, h, n) && StoresFinal(h)
    requires Speaks(Advance(me, o), reports, answers) && FinalWordsOnly(reports, answers)
    ensures StoresFinal(n.handler)
  {
    if h.Check? && h.spc.AwaitQuery? {
      QueryAnswers(sh, me, h, o);
      hide QueryStep;
    } else {
      hide HandlerStep, Effects, ReadsTable, CallbackMoves, ExtractTransactionId;
    }
  }

  lemma WritesFinal(me: nat, h: Handler, n: Stepped, reports: set<string>)
    requires Coherent(h) && StoresFinal(h) && Moves(me, h, n.handler, n.event)
    requires h.Callback? ==> ExtractStatusFromCallback(h.payload) in reports
    requires PENDING !in reports
    ensures n.event.Some? && n.event.value.Did? && (n.event.value.act.WroteCallback? || n.event.value.act.WroteCheck?) ==>
              IsTerminal(n.event.value.act.status)
  {
    hide ExtractTransactionId, BuildCallbackLockKey, ExtractStatusFromCallback;
  }

  lemma RowsStayFinal(sh: Shared, me: nat, h: Handler, n: Stepped)
    requires ProcessedAreFinal(sh.rows) && Effects(sh, n.shared, me, h, n.event)
    requires n.event.Some? && n.event.value.Did? && (n.event.value.act.WroteCallback? || n.event.value.act.WroteCheck?) ==>
               IsTerminal(n.event.value.act.status)
    ensures ProcessedAreFinal(n.shared.rows)
  {
    hide IsTerminal, Handler.Key;
  }

  lemma FinalAdvance(s: State, i: nat, o: Outcome, reports: set<string>, answers: set<string>)
    requires FinalSoFar(s) && Reports(s.handlers, reports) && AllCoherent(s) && Active(s, i)
    requires Speaks(Advance(i, o), reports, answers) && FinalWordsOnly(reports, answers)
    ensures FinalSoFar(Apply(s, Advance(i, o)))
  {
    hide HandlerStep, Moves, Effects, ReadsTable, StoresFinal, Coherent, ProcessedAreFinal, ExtractStatusFromCallback, Speaks;
    var n := ApplyAdvance(s, i, o);
    NextStoresFinal(s.shared, i, s.handlers[i], o, n, reports, answers);
    WritesFinal(i, s.handlers[i], n, reports);
    RowsStayFinal(s.shared, i, s.handlers[i], n);
  }

  lemma FreshStoresNothing(h: Handler)
    requires IsFresh(h)
    ensures StoresFinal(h)
  {
  }

  lemma FinalStep(s: State, l: Label, reports: set<string>, answers: set<string>)
    requires FinalSoFar(s) && Reports(s.handlers, reports) && AllCoherent(s)
    requires Speaks(l, reports, answers) && FinalWordsOnly(reports, answers)
    ensures FinalSoFar(Apply(s, l))
  {
    hide HandlerStep, StoresFinal, Coherent, IsFresh, FindById, Speaks, IsTerminal;
    match l
    case Spawn(h) =>
      if IsFresh(h) {
        FreshStoresNothing(h);
      }
    case Advance(i, o) =>
      if Active(s, i) {
        hide FinalSoFar, Apply;
        FinalAdvance(s, i, o, reports, answers);
      }
    case _ =>
  }

  lemma {:induction false} FinalThroughout(labels: seq<Label>, reports: set<string>, answers: set<string>)
    requires Vocabulary(labels, reports, answers) && FinalWordsOnly(reports, answers)
    ensures FinalSoFar(Run(INIT, labels))
    decreases |labels|
  {
    hide Apply, Speaks, AllCoherent, FinalWordsOnly, Reports;
    if labels != [] {
      var before := labels[..|labels| - 1];
      FinalThroughout(before, reports, answers);
      ReportsThroughout(before, reports, answers);
      CoherentThroughout(before);
      FinalStep(Run(INIT, before), labels[|labels| - 1], reports, answers);
    }
  }

  // ---------- No webhook at all ----------

  predicate NoReports(reports: set<string>) {
    forall w :: w in reports ==> !IsThreeWord(w)
  }

  lemma NothingProcessed(labels: seq<Label>, reports: set<string>, answers: set<string>)
    requires Vocabulary(labels, reports, answers) && NoReports(reports)
    ensures ProcessedAreFinal(Run(INIT, labels).shared.rows)
  {
    var s := Run(INIT, labels);
    ReportsThroughout(labels, reports, answers);
    NobodyReports(s.handlers, reports);
    hide Run, IsTerminal, Reports, NoReports;
    forall r | r in s.shared.rows
      ensures s.shared.rows[r].processed ==> IsTerminal(s.shared.rows[r].status)
    {
      if s.shared.rows[r].processed {
        ProcessedHasProvenance(labels, r);
      }
    }
  }

  lemma NobodyReports(hs: seq<Handler>, reports: set<string>)
    requires Reports(hs, reports) && NoReports(reports)
    ensures forall i :: 0 <= i < |hs| ==> !hs[i].Callback?
  {
    hide IsThreeWord;
  }

  // ---------- One word too many ----------

  lemma VocabularyConcat(a: seq<Label>, b: seq<Label>, reports: set<string>, answers: set<string>)
    requires Vocabulary(a, reports, answers) && Vocabulary(b, reports, answers)
    ensures Vocabulary(a + b, reports, answers)
  {
    hide Speaks;
  }

  function PendingReport(): seq<Label> {
    SETUP + ([Spawn(Hook(BRITAM, PENDING))] + (Enter(1) + [Advance(1, Ok)]))
  }

  /** The state after a callback reporting `word` has written the row. */
  function Reported(s: State, word: string): State
    requires |s.handlers| > 1
  {
    Wrote(Entered(s, 1, BRITAM, word, ROW), 1, BRITAM, word, ROW)
  }

  lemma ReportRuns(s: State, word: string)
    requires IsThreeWord(word) && |s.handlers| > 1 && s.handlers[1] == Hook(BRITAM, word) && s.crashed == {}
    requires s.shared == READY.shared
    ensures Run(s, Enter(1) + [Advance(1, Ok)]) == Reported(s, word)
  {
    SetupRuns();
    hide Run, Body, FindById, WellFormed, UpdateWhere, Enter, IsThreeWord, BuildCallbackLockKey, ExtractTransactionId;
    RunConcat(s, Enter(1), [Advance(1, Ok)]);
    EnterRuns(s, 1, BRITAM, word, ROW);
    WriteRuns(Entered(s, 1, BRITAM, word, ROW), 1, BRITAM, word, ROW);
  }

  lemma FreshHook(word: string)
    requires IsThreeWord(word)
    ensures IsFresh(Hook(BRITAM, word))
  {
    BodyFacts(word);
  }

  lemma PendingReportRuns()
    ensures var rows := Run(INIT, PendingReport()).shared.rows;
            "REF" in rows && rows["REF"].processed && !IsTerminal(rows["REF"].status)
  {
    SetupRuns();
    FreshHook(PENDING);
    var h := Hook(BRITAM, PENDING);
    var s := READY.(handlers := READY.handlers + [h]);
    hide Run, Body, FindById, WellFormed, Enter, IsFresh, BuildCallbackLockKey, ExtractTransactionId;
    RunConcat(INIT, SETUP, [Spawn(h)] + (Enter(1) + [Advance(1, Ok)]));
    RunCons(READY, Spawn(h), Enter(1) + [Advance(1, Ok)]);
    assert Apply(READY, Spawn(h)) == s;
    ReportRuns(s, PENDING);
  }

  lemma PendingReportSpeaks(reports: set<string>, answers: set<string>)
    requires PENDING in reports
    ensures Vocabulary(PendingReport(), reports, answers)
  {
    BodyFacts(PENDING);
    hide Body;
    assert Vocabulary(SETUP, reports, answers);
    assert Vocabulary([Spawn(Hook(BRITAM, PENDING))], reports, answers);
    assert Vocabulary(Enter(1) + [Advance(1, Ok)], reports, answers);
    hide Vocabulary;
    VocabularyConcat([Spawn(Hook(BRITAM, PENDING))], Enter(1) + [Advance(1, Ok)], reports, answers);
    VocabularyConcat(SETUP, [Spawn(Hook(BRITAM, PENDING))] + (Enter(1) + [Advance(1, Ok)]), reports, answers);
  }

  /** A status check after the callback that is told something else. */
  function LateAnswer(word: string, answer: string): seq<Label> {
    SETUP + ([Spawn(Hook(BRITAM, word)), Spawn(NewCheck(ID))] +
             ((Enter(1) + [Advance(1, Ok)]) + [Advance(2, Ok), Advance(2, Answer(Some(answer))), Advance(2, Ok)]))
  }

  lemma LateRow(word: string)
    ensures FindById(UpdateWhere(READY.shared.rows, ID, CallbackPatch(word)), ID) == Some(Patched(ROW, CallbackPatch(word)))
  {
    SetupRuns();
    hide UpdateWhere, FindById, WellFormed;
    UpdateWhereKeeps(READY.shared.rows, ID, CallbackPatch(word));
  }

  lemma CheckStores(s: State, row: Row, answer: string)
    requires |s.handlers| == 3 && s.handlers[2] == NewCheck(ID) && s.crashed == {}
    requires FindById(s.shared.rows, ID) == Some(row) && answer != row.status
    ensures Run(s, [Advance(2, Ok), Advance(2, Answer(Some(answer))), Advance(2, Ok)]).shared.rows ==
            UpdateWhere(s.shared.rows, ID, StatusPatch(answer))
  {
    hide Run, FindById, UpdateWhere, IsTerminal;
    ThreeSteps(s, Advance(2, Ok), Advance(2, Answer(Some(answer))), Advance(2, Ok));
    var s1 := Apply(s, Advance(2, Ok));
    assert s1.handlers == s.handlers[2 := Check(ID, AwaitQuery(row))] && s1.shared == s.shared;
    var s2 := Apply(s1, Advance(2, Answer(Some(answer))));
    assert s2.handlers == s.handlers[2 := Check(ID, AwaitStore(row, answer))] && s2.shared == s.shared;
  }

  lemma TwiceUpdated(word: string, answer: string)
    ensures var rows := UpdateWhere(UpdateWhere(READY.shared.rows, ID, CallbackPatch(word)), ID, StatusPatch(answer));
            "REF" in rows && rows["REF"].processed && rows["REF"].status == answer
  {
  }

  function Both(word: string): State {
    READY.(handlers := READY.handlers + [Hook(BRITAM, word), NewCheck(ID)])
  }

  lemma BothStart(word: string)
    requires IsThreeWord(word)
    ensures Run(READY, [Spawn(Hook(BRITAM, word)), Spawn(NewCheck(ID))]) == Both(word)
  {
    FreshHook(word);
    assert IsFresh(NewCheck(ID));
    hide IsFresh, Body, READY;
    TwoSpawns(READY, Hook(BRITAM, word), NewCheck(ID));
  }

  lemma BothRun(word: string, answer: string)
    requires IsTerminal(word) && !IsTerminal(answer)
    ensures var polls := [Advance(2, Ok), Advance(2, Answer(Some(answer))), Advance(2, Ok)];
            Run(Both(word), (Enter(1) + [Advance(1, Ok)]) + polls).shared.rows ==
            UpdateWhere(UpdateWhere(READY.shared.rows, ID, CallbackPatch(word)), ID, StatusPatch(answer))
  {
    LateRow(word);
    hide Run, Body, FindById, Enter, BuildCallbackLockKey, ExtractTransactionId, UpdateWhere;
    var polls := [Advance(2, Ok), Advance(2, Answer(Some(answer))), Advance(2, Ok)];
    RunConcat(Both(word), Enter(1) + [Advance(1, Ok)], polls);
    ReportRuns(Both(word), word);
    CheckStores(Reported(Both(word), word), Patched(ROW, CallbackPatch(word)), answer);
  }

  lemma LateAnswerRuns(word: string, answer: string)
    requires IsTerminal(word) && !IsTerminal(answer)
    ensures var rows := Run(INIT, LateAnswer(word, answer)).shared.rows;
            "REF" in rows && rows["REF"].processed && rows["REF"].status == answer
  {
    TwiceUpdated(word, answer);
    SetupRuns();
    BothStart(word);
    BothRun(word, answer);
    hide Run, Hook, SETUP, READY, Both, Enter, UpdateWhere, FindById, WellFormed, IsTerminal;
    var polls := [Advance(2, Ok), Advance(2, Answer(Some(answer))), Advance(2, Ok)];
    var spawns := [Spawn(Hook(BRITAM, word)), Spawn(NewCheck(ID))];
    RunConcat(INIT, SETUP, spawns + ((Enter(1) + [Advance(1, Ok)]) + polls));
    RunConcat(READY, spawns, (Enter(1) + [Advance(1, Ok)]) + polls);
  }

  lemma LateAnswerSpeaks(word: string, answer: string, reports: set<string>, answers: set<string>)
    requires IsThreeWord(word) && word in reports && answer in answers
    ensures Vocabulary(LateAnswer(word, answer), reports, answers)
  {
    BodyFacts(word);
    hide Body;
    var polls := [Advance(2, Ok), Advance(2, Answer(Some(answer))), Advance(2, Ok)];
    var spawns := [Spawn(Hook(BRITAM, word)), Spawn(NewCheck(ID))];
    assert Vocabulary(SETUP, reports, answers);
    assert Vocabulary(spawns, reports, answers);
    assert Vocabulary(Enter(1) + [Advance(1, Ok)], reports, answers);
    assert Vocabulary(polls, reports, answers);
    hide Vocabulary;
    VocabularyConcat(Enter(1) + [Advance(1, Ok)], polls, reports, answers);
    VocabularyConcat(spawns, (Enter(1) + [Advance(1, Ok)]) + polls, reports, answers);
    VocabularyConcat(SETUP, spawns + ((Enter(1) + [Advance(1, Ok)]) + polls), reports, answers);
  }

  /** `processed` means a final status, in every run on these vocabularies, exactly when no webhook reports `pending`
      and the hub answers nothing but final words - or when there is nothing for a webhook to report at all. */
  lemma ProcessedMeansFinalIff(reports: set<string>, answers: set<string>)
    ensures ProcessedMeansFinal(reports, answers) <==> NoReports(reports) || FinalWordsOnly(reports, answers)
  {
    hide Run, Vocabulary, ProcessedAreFinal, LateAnswer, PendingReport, IsTerminal;
    if NoReports(reports) || FinalWordsOnly(reports, answers) {
      forall labels | Vocabulary(labels, reports, answers)
        ensures ProcessedAreFinal(Run(INIT, labels).shared.rows)
      {
        if NoReports(reports) {
          NothingProcessed(labels, reports, answers);
        } else {
          FinalThroughout(labels, reports, answers);
        }
      }
    } else if PENDING in reports {
      PendingReportRuns();
      PendingReportSpeaks(reports, answers);
      NotFinal(Run(INIT, PendingReport()).shared.rows);
    } else {
      var word :| word in reports && IsThreeWord(word);
      var answer :| answer in answers && !IsTerminal(answer);
      LateAnswerRuns(word, answer);
      LateAnswerSpeaks(word, answer, reports, answers);
      NotFinal(Run(INIT, LateAnswer(word, answer)).shared.rows);
    }
  }

  lemma NotFinal(rows: Table)
    requires "REF" in rows && rows["REF"].processed && !IsTerminal(rows["REF"].status)
    ensures !ProcessedAreFinal(rows)
  {
  }
}
