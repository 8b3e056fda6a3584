/** Which words may the payment hub answer while it has no outcome? A status check stores whatever it is told, so the
    answer decides whether final statuses stay. */
module UnsettledWords {
  import opened Wrappers
  import opened PaymentDomain
  import opened PaymentTable
  import opened World
  import opened Protocol
  import opened ControlFlow
  import opened RowLife
  import opened GatewayAgreement
  import opened FinalStatus
  import opened Scenarios

  // ---------- Honest continuations ----------

  lemma HonestConcat(s: State, a: seq<Label>, b: seq<Label>, unsettled: set<string>)
    requires HonestFrom(s, a, unsettled) && HonestFrom(Run(s, a), b, unsettled)
    ensures HonestFrom(s, a + b, unsettled)
  {
    hide HonestLabel, Run;
    forall k | 0 <= k < |a + b|
      ensures HonestLabel(Run(s, (a + b)[..k]), (a + b)[k], unsettled)
    {
      if k < |a| {
        assert (a + b)[..k] == a[..k];
      } else {
        assert (a + b)[..k] == a + b[..k - |a|];
        RunConcat(s, a, b[..k - |a|]);
      }
    }
  }

  lemma HonestOne(s: State, l: Label, unsettled: set<string>)
    requires HonestLabel(s, l, unsettled)
    ensures HonestFrom(s, [l], unsettled)
  {
    hide HonestLabel;
    assert [l][..0] == [];
  }

  /** What handler `i` would report, if it reports anything, is what the hub settled on. */
  predicate Truthful(s: State, i: nat) {
    i < |s.handlers| &&
    (s.handlers[i].Callback? ==>
       IsSettled(s.settled, s.handlers[i].Id(), ExtractStatusFromCallback(s.handlers[i].payload)))
  }

  lemma TruthfulStays(s: State, i: nat, o: Outcome)
    requires Truthful(s, i)
    ensures Truthful(Apply(s, Advance(i, o)), i)
  {
    hide HandlerStep, CallbackMoves, CheckMoves, Effects, ReadsTable, ExtractTransactionId, ExtractStatusFromCallback;
    if Active(s, i) {
      var n := ApplyAdvance(s, i, o);
    }
  }

  /** The steps of a truthful handler are honest, as long as no query is answered. */
  lemma {:induction false} TruthfulIsHonest(s: State, i: nat, labels: seq<Label>, unsettled: set<string>)
    requires Truthful(s, i)
    requires forall k :: 0 <= k < |labels| ==> labels[k].Advance? && labels[k].who == i && !labels[k].outcome.Answer?
    ensures HonestFrom(s, labels, unsettled)
    decreases |labels|
  {
    if labels != [] {
      var l := labels[0];
      assert HonestLabel(s, l, unsettled) by { hide ExtractTransactionId, ExtractStatusFromCallback; }
      TruthfulStays(s, i, l.outcome);
      TruthfulIsHonest(Apply(s, l), i, labels[1..], unsettled);
      hide HonestLabel, Apply, Truthful;
      HonestOne(s, l, unsettled);
      OneStep(s, l);
      HonestConcat(s, [l], labels[1..], unsettled);
      assert labels == [l] + labels[1..];
    }
  }

  lemma OthersAreHonest(s: State, labels: seq<Label>, unsettled: set<string>)
    requires forall k :: 0 <= k < |labels| ==> !labels[k].Advance?
    ensures HonestFrom(s, labels, unsettled)
  {
    hide Run;
  }

  // ---------- A check that asks before the outcome and stores after it ----------

  function OtherOutcome(word: string): string {
    if word == COMPLETED then FAILED else COMPLETED
  }

  function Asking(word: string): State {
    READY.(handlers := READY.handlers + [NewCheck(ID), Hook(BRITAM, OtherOutcome(word))])
  }

  /** The check has read the row and been told `word`; then the hub settles on something else. */
  function Told(word: string): State {
    Asking(word).(handlers := Asking(word).handlers[1 := Check(ID, AwaitStore(ROW, word))],
                  log := READY.log + [Did(1, ID, ReadForCheck(PENDING))],
                  settled := map[ID := OtherOutcome(word)])
  }

  function Opening(word: string): seq<Label> {
    SETUP + [Spawn(NewCheck(ID)), Spawn(Hook(BRITAM, OtherOutcome(word)))]
  }

  function Query(word: string): seq<Label> {
    [Advance(1, Ok)] + [Advance(1, Answer(Some(word)))] + [Settle(ID, OtherOutcome(word))]
  }

  const DELIVERY: seq<Label> := Enter(2) + [Advance(2, Ok)]

  const LATE_STORE: seq<Label> := [Advance(1, Ok)]

  lemma SetupIsHonest(unsettled: set<string>)
    ensures HonestFrom(INIT, SETUP, unsettled)
  {
    var h := NewInitiate(REQUEST, MPESA);
    var s := Apply(INIT, SETUP[0]);
    assert Truthful(s, 0);
    var moves := [Advance(0, Ok), Advance(0, Ok), Advance(0, Ok)];
    TruthfulIsHonest(s, 0, moves, unsettled);
    hide Apply, Truthful, HonestLabel;
    OthersAreHonest(INIT, [Spawn(h)], unsettled);
    OthersAreHonest(Run(s, moves), [BindId("REF", ID)], unsettled);
    HonestConcat(s, moves, [BindId("REF", ID)], unsettled);
    OneStep(INIT, Spawn(h));
    HonestConcat(INIT, [Spawn(h)], moves + [BindId("REF", ID)], unsettled);
    assert SETUP == [Spawn(h)] + (moves + [BindId("REF", ID)]);
  }

  lemma OpeningRuns(word: string, unsettled: set<string>)
    ensures Run(INIT, Opening(word)) == Asking(word)
    ensures HonestFrom(INIT, Opening(word), unsettled)
  {
    var h, g := NewCheck(ID), Hook(BRITAM, OtherOutcome(word));
    BodyFacts(OtherOutcome(word));
    SetupRuns();
    SetupIsHonest(unsettled);
    TwoSpawns(READY, h, g);
    hide Run, HonestFrom, Body, FindById, WellFormed;
    RunConcat(INIT, SETUP, [Spawn(h), Spawn(g)]);
    OthersAreHonest(READY, [Spawn(h), Spawn(g)], unsettled);
    HonestConcat(INIT, SETUP, [Spawn(h), Spawn(g)], unsettled);
  }

  lemma QueryRuns(word: string, unsettled: set<string>)
    requires word in unsettled && word != PENDING
    ensures Run(Asking(word), Query(word)) == Told(word)
    ensures HonestFrom(Asking(word), Query(word), unsettled)
  {
    SetupRuns();
    var s := Asking(word);
    hide FindById, WellFormed, Hook;
    var read := s.(handlers := s.handlers[1 := Check(ID, AwaitQuery(ROW))], log := s.log + [Did(1, ID, ReadForCheck(PENDING))]);
    assert Apply(s, Advance(1, Ok)) == read;
    var answered := read.(handlers := read.handlers[1 := Check(ID, AwaitStore(ROW, word))]);
    assert Apply(read, Advance(1, Answer(Some(word)))) == answered;
    assert Apply(answered, Settle(ID, OtherOutcome(word))) == Told(word);
    assert HonestLabel(read, Advance(1, Answer(Some(word))), unsettled);
    hide Apply, Run, HonestFrom, Told;
    ThreeSteps(s, Advance(1, Ok), Advance(1, Answer(Some(word))), Settle(ID, OtherOutcome(word)));
    assert Query(word) == [Advance(1, Ok), Advance(1, Answer(Some(word))), Settle(ID, OtherOutcome(word))];
    ThreeHonest(s, Advance(1, Ok), Advance(1, Answer(Some(word))), Settle(ID, OtherOutcome(word)), unsettled);
  }

  lemma ThreeHonest(s: State, a: Label, b: Label, c: Label, unsettled: set<string>)
    requires HonestLabel(s, a, unsettled) && HonestLabel(Apply(s, a), b, unsettled)
    requires HonestLabel(Apply(Apply(s, a), b), c, unsettled)
    ensures HonestFrom(s, [a] + [b] + [c], unsettled)
  {
    hide HonestLabel, Apply, HonestFrom, Run;
    HonestOne(s, a, unsettled);
    HonestOne(Apply(s, a), b, unsettled);
    HonestOne(Apply(Apply(s, a), b), c, unsettled);
    OneStep(s, a);
    OneStep(Apply(s, a), b);
    HonestConcat(s, [a], [b], unsettled);
    RunConcat(s, [a], [b]);
    HonestConcat(s, [a] + [b], [c], unsettled);
  }

  /** The callback has reported the outcome and written it. */
  function Delivered(word: string): State {
    Wrote(Entered(Told(word), 2, BRITAM, OtherOutcome(word), ROW), 2, BRITAM, OtherOutcome(word), ROW)
  }

  lemma DeliveryRuns(word: string, unsettled: set<string>)
    ensures Run(Told(word), DELIVERY) == Delivered(word)
    ensures HonestFrom(Told(word), DELIVERY, unsettled)
  {
    var outcome := OtherOutcome(word);
    SetupRuns();
    BodyFacts(outcome);
    TruthfulIsHonest(Told(word), 2, DELIVERY, unsettled);
    hide Run, HonestFrom, Body, ExtractTransactionId, ExtractStatusFromCallback, BuildCallbackLockKey, FindById, UpdateWhere;
    RunConcat(Told(word), Enter(2), [Advance(2, Ok)]);
    EnterRuns(Told(word), 2, BRITAM, outcome, ROW);
    WriteRuns(Entered(Told(word), 2, BRITAM, outcome, ROW), 2, BRITAM, outcome, ROW);
  }

  lemma LateStoreRuns(word: string, unsettled: set<string>)
    ensures var t := Run(Delivered(word), LATE_STORE);
            && t.shared.rows == UpdateWhere(Delivered(word).shared.rows, ID, StatusPatch(word))
            && t.log == Delivered(word).log + [Did(1, ID, WroteCheck(word, true))]
    ensures HonestFrom(Delivered(word), LATE_STORE, unsettled)
  {
    hide Body, UpdateWhere, BuildCallbackLockKey, HonestFrom;
    OneStep(Delivered(word), Advance(1, Ok));
    HonestOne(Delivered(word), Advance(1, Ok), unsettled);
  }

  /** The row before and after the late store. */
  lemma LateStoreOverwrites(word: string)
    ensures FindById(Delivered(word).shared.rows, ID) == Some(Patched(ROW, CallbackPatch(OtherOutcome(word))))
    ensures FindById(UpdateWhere(Delivered(word).shared.rows, ID, StatusPatch(word)), ID) ==
            Some(Patched(Patched(ROW, CallbackPatch(OtherOutcome(word))), StatusPatch(word)))
  {
    SetupRuns();
    hide FindById, WellFormed, UpdateWhere, Body, Patched;
    UpdateWhereKeeps(READY.shared.rows, ID, CallbackPatch(OtherOutcome(word)));
    UpdateWhereKeeps(Delivered(word).shared.rows, ID, StatusPatch(word));
  }

  function Before(word: string): seq<Label> {
    Opening(word) + (Query(word) + DELIVERY)
  }

  lemma BeforeRuns(word: string, unsettled: set<string>)
    requires word in unsettled && word != PENDING
    ensures Run(INIT, Before(word)) == Delivered(word)
    ensures HonestFrom(INIT, Before(word), unsettled)
  {
    hide Run, HonestFrom, Opening, Query, DELIVERY, Asking, Told, Delivered;
    OpeningRuns(word, unsettled);
    QueryRuns(word, unsettled);
    DeliveryRuns(word, unsettled);
    RunConcat(INIT, Opening(word), Query(word) + DELIVERY);
    RunConcat(Asking(word), Query(word), DELIVERY);
    HonestConcat(Asking(word), Query(word), DELIVERY, unsettled);
    HonestConcat(INIT, Opening(word), Query(word) + DELIVERY, unsettled);
  }

  lemma NothingWasReset(word: string)
    ensures NeverReset(Delivered(word).log + [Did(1, ID, WroteCheck(word, true))], ID)
  {
    hide Body;
  }

  // ---------- The vocabulary theorem ----------

  /** Whenever the row of `id` is final, it has that status ever after. */
  ghost predicate Sticks(before: seq<Label>, after: seq<Label>, id: string, unsettled: set<string>) {
    HonestRun(before + after, unsettled) && NeverReset(Run(INIT, before + after).log, id) && RowFinal(Run(INIT, before), id) ==>
      RowFinal(Run(INIT, before + after), id) &&
      FindById(Run(INIT, before + after).shared.rows, id).value.status ==
      FindById(Run(INIT, before).shared.rows, id).value.status
  }

  ghost predicate FinalStatusesStick(unsettled: set<string>) {
    forall before, after, id :: Sticks(before, after, id, unsettled)
  }

  lemma OutcomeLost(word: string, unsettled: set<string>)
    requires word in unsettled && word != PENDING
    ensures !Sticks(Before(word), LATE_STORE, ID, unsettled)
  {
    hide Run, HonestFrom, Before, LATE_STORE, Delivered, FindById, UpdateWhere;
    BeforeRuns(word, unsettled);
    LateStoreRuns(word, unsettled);
    LateStoreOverwrites(word);
    NothingWasReset(word);
    RunConcat(INIT, Before(word), LATE_STORE);
    HonestConcat(INIT, Before(word), LATE_STORE, unsettled);
  }

  lemma FewerWordsAreHonest(labels: seq<Label>, unsettled: set<string>, more: set<string>)
    requires unsettled <= more && HonestRun(labels, unsettled)
    ensures HonestRun(labels, more)
  {
    hide Run, ExtractTransactionId, ExtractStatusFromCallback;
  }

  /** Final statuses stick in every honest run exactly when `pending` is the only word the hub answers while it has
      not settled. With any other word (`completed` and `failed` included) a check that asked before the outcome
      and stores after it overwrites the final status. */
  lemma FinalStatusesStickIff(unsettled: set<string>)
    ensures FinalStatusesStick(unsettled) <==> unsettled <= {PENDING}
  {
    hide Sticks;
    if unsettled <= {PENDING} {
      forall before, after, id
        ensures Sticks(before, after, id, unsettled)
      {
        PendingSticks(before, after, id, unsettled);
      }
    } else {
      var word :| word in unsettled && word !in {PENDING};
      OutcomeLost(word, unsettled);
    }
  }

  lemma PendingSticks(before: seq<Label>, after: seq<Label>, id: string, unsettled: set<string>)
    requires unsettled <= {PENDING}
    ensures Sticks(before, after, id, unsettled)
  {
    hide Run, HonestRun, NeverReset, RowFinal, FindById;
    if HonestRun(before + after, unsettled) && NeverReset(Run(INIT, before + after).log, id) &&
       RowFinal(Run(INIT, before), id) {
      FewerWordsAreHonest(before + after, unsettled, {PENDING});
      FinalStatusSticks(before, after, id);
    }
  }
}
