/** The webhook use case answers `processed: true` whenever `handleCallback` returns. When is that true of the row? */
module Acknowledgements {
  import opened Wrappers
  import opened PaymentDomain
  import opened PaymentTable
  import opened World
  import opened Protocol
  import opened Coherence
  import opened ControlFlow
  import opened History
  import opened EffectivelyOnce
  import opened Provenance
  import opened RowLife
  import opened Scenarios
  import opened SerialHandlers

  /** The callback has returned to its caller. */
  predicate Acknowledged(h: Handler) {
    h.Callback? && h.cpc.CallbackDone? && CallbackResult(h.Id(), h.cpc.exit, h.cpc.release).Success?
  }

  /** What the acknowledgement rests on: the handler's own write, a read under the lock that found the row processed, or,
      without the lock, a read that found it processed or not. */
  datatype Ground = OwnWrite | SeenUnderLock | SeenOnMiss | NothingSeen

  function GroundOf(exit: Exit): Ground {
    match exit
    case Processed(_, _) => OwnWrite
    case Duplicate(_) => SeenUnderLock
    case Missed(row) => if row.processed then SeenOnMiss else NothingSeen
    case _ => NothingSeen
  }

  predicate AcknowledgedOn(h: Handler, ground: Ground) {
    Acknowledged(h) && GroundOf(h.cpc.exit) == ground
  }

  // ---------- Processed means written ----------

  lemma {:induction false} PartnersOf(hs: seq<Handler>, id: string) returns (partners: seq<string>)
    ensures OnlyPartners(hs, id, partners)
  {
    partners := [];
    if hs != [] {
      var before := PartnersOf(hs[..|hs| - 1], id);
      var last := hs[|hs| - 1];
      partners := before + [if last.Callback? then last.partner else ""];
      hide Handler.Id;
      assert partners[|before|] in partners;
      assert forall p :: p in before ==> p in partners;
      assert forall i :: 0 <= i < |hs| - 1 ==> hs[i] == hs[..|hs| - 1][i];
    }
  }

  lemma WritesLandThroughout(labels: seq<Label>, id: string)
    requires NeverReset(Run(INIT, labels).log, id)
    ensures WritesLand(Run(INIT, labels), id)
  {
    hide Run, WritesLand, OnlyPartners;
    var partners := PartnersOf(Run(INIT, labels).handlers, id);
    PressureBounded(labels, id, partners);
  }

  /** Unless its row was reset, a transaction is processed exactly when the update of some callback has landed. */
  lemma ProcessedIffWritten(labels: seq<Label>, id: string)
    requires NeverReset(Run(INIT, labels).log, id)
    ensures RowProcessed(Run(INIT, labels), id) <==> Occurs(Run(INIT, labels).log, CallbackWrites(id)) > 0
  {
    hide Run, Occurs, Tally, WellFormed;
    var s := Run(INIT, labels);
    WritesLandThroughout(labels, id);
    ProcessedThroughout(labels);
    LogCountsAreTallies(labels, CallbackWrites(id));
    if RowProcessed(s, id) {
      var r :| r in s.shared.rows && s.shared.rows[r] == FindById(s.shared.rows, id).value;
      assert s.shared.rows[r].processed && s.shared.rows[r].transactionId == Some(id);
    }
  }

  // ---------- Seen processed means written ----------

  predicate SawProcessed(h: Handler) {
    RowIn(h).Some? && RowIn(h).value.processed
  }

  ghost predicate SeenWereWritten(s: State) {
    forall i :: 0 <= i < |s.handlers| && SawProcessed(s.handlers[i]) ==> Occurs(s.log, CallbackWrites(s.handlers[i].Id())) > 0
  }

  lemma FoundWereWritten(s: State, id: string)
    requires ProcessedWereWritten(s) && FindById(s.shared.rows, id).Some? && FindById(s.shared.rows, id).value.processed
    ensures Occurs(s.log, CallbackWrites(id)) > 0
  {
    hide Occurs;
    var r :| r in s.shared.rows && s.shared.rows[r] == FindById(s.shared.rows, id).value;
    assert s.shared.rows[r].processed;
  }

  lemma NewSighting(s: State, i: nat, n: Stepped)
    requires SeenWereWritten(s) && ProcessedWereWritten(s) && i < |s.handlers|
    requires Shaped(s.shared, i, s.handlers[i], n) && SawProcessed(n.handler)
    ensures Occurs(s.log, CallbackWrites(s.handlers[i].Id())) > 0
    ensures n.handler.Id() == s.handlers[i].Id()
  {
    MovesActs(i, s.handlers[i], n.handler, n.event);
    hide Moves, Effects, RowIn, FindById, Occurs, ProcessedWereWritten, Handler.Id;
    if RowIn(s.handlers[i]).None? {
      FoundWereWritten(s, s.handlers[i].Id());
    }
  }

  lemma SeenAdvance(s: State, i: nat, n: Stepped)
    requires SeenWereWritten(s) && ProcessedWereWritten(s) && i < |s.handlers| && Shaped(s.shared, i, s.handlers[i], n)
    ensures SeenWereWritten(s.(shared := n.shared, handlers := s.handlers[i := n.handler], log := Logged(s.log, n.event)))
  {
    hide Shaped, SawProcessed, Occurs, Handler.Id, ProcessedWereWritten;
    var hs := s.handlers[i := n.handler];
    forall j | 0 <= j < |hs| && SawProcessed(hs[j])
      ensures Occurs(Logged(s.log, n.event), CallbackWrites(hs[j].Id())) > 0
    {
      OccursLogged(s.log, n.event, CallbackWrites(hs[j].Id()));
      if j == i {
        NewSighting(s, i, n);
      }
    }
  }

  lemma FreshSawNothing(h: Handler)
    requires IsFresh(h)
    ensures !SawProcessed(h)
  {
  }

  lemma SeenStep(s: State, l: Label)
    requires SeenWereWritten(s) && ProcessedWereWritten(s)
    ensures SeenWereWritten(Apply(s, l))
  {
    hide HandlerStep, Shaped, SawProcessed, Occurs, IsFresh, FindById, Bind, Handler.Id, ProcessedWereWritten;
    match l
    case Spawn(h) =>
      if IsFresh(h) {
        FreshSawNothing(h);
      }
    case Advance(i, o) =>
      if Active(s, i) {
        var n := ApplyAdvance(s, i, o);
        SeenAdvance(s, i, n);
      }
    case Expire(key) =>
      forall j | 0 <= j < |s.handlers| && SawProcessed(s.handlers[j])
        ensures Occurs(Apply(s, l).log, CallbackWrites(s.handlers[j].Id())) > 0
      {
        OccursLogged(s.log, Some(Expired(key)), CallbackWrites(s.handlers[j].Id()));
      }
    case _ =>
  }

  lemma {:induction false} SeenThroughout(labels: seq<Label>)
    ensures SeenWereWritten(Run(INIT, labels))
    decreases |labels|
  {
    hide Apply, ProcessedWereWritten;
    if labels != [] {
      var before := labels[..|labels| - 1];
      SeenThroughout(before);
      ProcessedThroughout(before);
      SeenStep(Run(INIT, before), labels[|labels| - 1]);
    }
  }

  // ---------- What an acknowledgement is worth ----------

  lemma GroundIsSeen(h: Handler, ground: Ground)
    requires Coherent(h) && AcknowledgedOn(h, ground) && ground != NothingSeen
    ensures SawProcessed(h) || Weight(h, CallbackWrites(h.Id())) > 0
  {
    hide ExtractTransactionId, BuildCallbackLockKey, ExtractStatusFromCallback;
  }

  /** An acknowledgement that rests on the handler's own write, or on a row that it saw processed, is true: the row is
      processed, in every state from then on that has not been reset. */
  lemma AcknowledgedIsProcessed(labels: seq<Label>, i: nat, ground: Ground)
    requires var s := Run(INIT, labels);
             && i < |s.handlers| && AcknowledgedOn(s.handlers[i], ground) && ground != NothingSeen
             && NeverReset(s.log, s.handlers[i].Id())
    ensures RowProcessed(Run(INIT, labels), Run(INIT, labels).handlers[i].Id())
  {
    var s := Run(INIT, labels);
    var h := s.handlers[i];
    hide Run, RowProcessed, NeverReset, SawProcessed, Weight, Occurs, Handler.Id, Coherent, AcknowledgedOn;
    CoherentThroughout(labels);
    assert Coherent(h);
    GroundIsSeen(h, ground);
    SeenThroughout(labels);
    LogCountsAreTallies(labels, CallbackWrites(h.Id()));
    TallyAtLeast(s.handlers, i, CallbackWrites(h.Id()));
    ProcessedIffWritten(labels, h.Id());
  }

  // ---------- A miss that nobody makes good ----------

  const WINNER: Handler := Hook(BRITAM, COMPLETED)

  /** One webhook takes the lock, a second one misses it and is acknowledged, and the first then fails its signature
      check. */
  const MISSED: seq<Label> :=
    SETUP + ([Spawn(WINNER), Spawn(WINNER)] +
             ([Advance(1, Ok), Advance(2, Ok)] + ([Advance(2, Ok), Advance(1, Ok)] + [Advance(1, Rejected), Advance(1, Ok)])))

  const LOCKED: State :=
    READY.(shared := READY.shared.(locks := map[WINNER.Key() := Lock(1, TTL)]),
           handlers := READY.handlers + [WINNER.(cpc := AwaitRead), WINNER.(cpc := AwaitMissRead)],
           log := READY.log + [Did(1, ID, Acquired)])

  lemma BothTry()
    ensures Run(READY, [Spawn(WINNER), Spawn(WINNER)] + [Advance(1, Ok), Advance(2, Ok)]) == LOCKED
  {
    BodyFacts(COMPLETED);
    var s := READY.(handlers := READY.handlers + [WINNER, WINNER]);
    hide Run, Body, BuildCallbackLockKey, ExtractTransactionId, FindById;
    TwoSpawns(READY, WINNER, WINNER);
    RunConcat(READY, [Spawn(WINNER), Spawn(WINNER)], [Advance(1, Ok), Advance(2, Ok)]);
    TwoSteps(s, Advance(1, Ok), Advance(2, Ok));
  }

  const SEEN: State :=
    LOCKED.(shared := LOCKED.shared.(metrics := Metrics(1, 1, 0, 0, 0)),
            handlers := READY.handlers + [WINNER.(cpc := AwaitConfig(ROW)), WINNER.(cpc := CallbackDone(Missed(ROW), NotHeld))],
            log := LOCKED.log + [Did(1, ID, ReadUnprocessed)])

  lemma BothRead()
    ensures Run(LOCKED, [Advance(2, Ok), Advance(1, Ok)]) == SEEN
  {
    BodyFacts(COMPLETED);
    SetupRuns();
    hide Run, Body, BuildCallbackLockKey, ExtractTransactionId, FindById, WellFormed;
    TwoSteps(LOCKED, Advance(2, Ok), Advance(1, Ok));
  }

  const ABANDONED: State :=
    SEEN.(shared := SEEN.shared.(locks := map[], metrics := Metrics(1, 1, 0, 0, 1)),
          handlers := READY.handlers +
                      [WINNER.(cpc := CallbackDone(ConfigFailed(InvalidCallbackSignature), Freed(Some(1)))), SEEN.handlers[2]],
          log := SEEN.log + [Did(1, ID, Deleted(Some(1)))])

  lemma FirstFails()
    ensures Run(SEEN, [Advance(1, Rejected), Advance(1, Ok)]) == ABANDONED
  {
    BodyFacts(COMPLETED);
    hide Run, Body, BuildCallbackLockKey, ExtractTransactionId, FindById;
    TwoSteps(SEEN, Advance(1, Rejected), Advance(1, Ok));
  }

  lemma MissedRuns()
    ensures Run(INIT, MISSED) == ABANDONED
  {
    SetupRuns();
    BothTry();
    BothRead();
    FirstFails();
    hide Run, SETUP, READY, LOCKED, SEEN, ABANDONED, FindById, WellFormed;
    var looks, failure := [Advance(2, Ok), Advance(1, Ok)], [Advance(1, Rejected), Advance(1, Ok)];
    var tries := [Advance(1, Ok), Advance(2, Ok)];
    RunConcat(INIT, SETUP, [Spawn(WINNER), Spawn(WINNER)] + (tries + (looks + failure)));
    assert [Spawn(WINNER), Spawn(WINNER)] + (tries + (looks + failure)) ==
           ([Spawn(WINNER), Spawn(WINNER)] + tries) + (looks + failure);
    RunConcat(READY, [Spawn(WINNER), Spawn(WINNER)] + tries, looks + failure);
    RunConcat(LOCKED, looks, failure);
  }

  /** Every handler is done, the second webhook has been told that its payment is processed, and it is not. */
  lemma AcknowledgedInVain()
    ensures var s := Run(INIT, MISSED);
            && Idle(s) && |s.handlers| == 3
            && AcknowledgedOn(s.handlers[2], NothingSeen)
            && s.handlers[2].Id() == ID && NeverReset(s.log, ID) && !RowProcessed(s, ID)
  {
    SetupRuns();
    MissedRuns();
    BodyFacts(COMPLETED);
    hide Run, Body, ExtractTransactionId, FindById, WellFormed, MISSED;
  }

  /** Whenever all handlers have finished, every acknowledgement on this ground is true of the row. */
  ghost predicate Reliable(ground: Ground) {
    forall labels, i: nat {:trigger Run(INIT, labels).handlers[i]} ::
      var s := Run(INIT, labels);
      i < |s.handlers| && Idle(s) && AcknowledgedOn(s.handlers[i], ground) &&
      NeverReset(s.log, s.handlers[i].Id())
      ==> RowProcessed(s, s.handlers[i].Id())
  }

  /** `processed: true` can be relied on exactly when the handler wrote the row or saw it processed: not when it missed
      the lock and read the row unprocessed, however the run ends. */
  lemma ReliableIff(ground: Ground)
    ensures Reliable(ground) <==> ground != NothingSeen
  {
    hide Run, Idle, AcknowledgedOn, NeverReset, RowProcessed, MISSED, Handler.Id;
    if ground != NothingSeen {
      forall labels, i: nat | i < |Run(INIT, labels).handlers| && AcknowledgedOn(Run(INIT, labels).handlers[i], ground) &&
                              NeverReset(Run(INIT, labels).log, Run(INIT, labels).handlers[i].Id())
        ensures RowProcessed(Run(INIT, labels), Run(INIT, labels).handlers[i].Id())
      {
        AcknowledgedIsProcessed(labels, i, ground);
      }
    } else {
      AcknowledgedInVain();
      assert AcknowledgedOn(Run(INIT, MISSED).handlers[2], ground);
    }
  }
}
