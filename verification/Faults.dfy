/** A webhook that misses the lock is acknowledged on the strength of whoever took it. Which faults of the takers make
    such an acknowledgement false? */
module Faults {
  import opened Wrappers
  import opened PaymentDomain
  import opened PaymentTable
  import opened World
  import opened Protocol
  import opened Coherence
  import opened ControlFlow
  import opened History
  import opened EffectivelyOnce
  import opened RowLife
  import opened Scenarios
  import opened SerialHandlers
  import opened Acknowledgements

  // ---------- Every key was taken by somebody ----------

  /** The handler has set its lock key at some time. */
  predicate Took(h: Handler) {
    h.Callback? &&
    (h.Holds() || (h.cpc.CallbackDone? && (!h.cpc.release.NotHeld? || (h.cpc.exit.LockFailed? && h.cpc.exit.stray))))
  }

  /** The handler found its lock key set. */
  predicate MissedKey(h: Handler) {
    h.Callback? &&
    (h.cpc.AwaitMissRead? || (h.cpc.CallbackDone? && (h.cpc.exit.Missed? || h.cpc.exit.MissFailed?)))
  }

  ghost predicate TakenBySome(hs: seq<Handler>, key: string) {
    exists i :: 0 <= i < |hs| && Took(hs[i]) && hs[i].Key() == key
  }

  ghost predicate KeysTaken(s: State) {
    && (forall key :: key in s.shared.locks ==> TakenBySome(s.handlers, key))
    && (forall i :: 0 <= i < |s.handlers| && MissedKey(s.handlers[i]) ==> TakenBySome(s.handlers, s.handlers[i].Key()))
  }

  lemma MovesTake(sh: Shared, me: nat, h: Handler, n: Stepped)
    requires Shaped(sh, me, h, n)
    ensures n.handler.Key() == h.Key()
    ensures Took(h) ==> Took(n.handler)
    ensures forall key :: key in n.shared.locks ==> key in sh.locks || (Took(n.handler) && key == h.Key())
  {
    MovesActs(me, h, n.handler, n.event);
    hide ReadsTable, RowsAfter, ExtractTransactionId, BuildCallbackLockKey, Handler.Key;
  }

  lemma LockMisses(sh: Shared, me: nat, h: Handler, o: Outcome)
    requires h.Callback? && h.cpc.AwaitLock? && MissedKey(LockStep(sh, me, h, o).handler)
    ensures h.Key() in sh.locks
  {
    hide ExtractTransactionId, BuildCallbackLockKey;
  }

  lemma MissesFindKey(sh: Shared, me: nat, h: Handler, o: Outcome, n: Stepped)
    requires Coherent(h) && n == HandlerStep(sh, me, h, o) && Shaped(sh, me, h, n) && MissedKey(n.handler)
    ensures MissedKey(h) || (h.Callback? && h.Key() in sh.locks)
  {
    if h.Callback? && h.cpc.AwaitLock? {
      LockMisses(sh, me, h, o);
    } else {
      hide HandlerStep, Effects, ReadsTable, ExtractTransactionId, ExtractStatusFromCallback, Handler.Key;
    }
  }

  lemma StillTaken(hs: seq<Handler>, i: nat, h: Handler, key: string)
    requires i < |hs| && h.Key() == hs[i].Key() && (Took(hs[i]) ==> Took(h)) && TakenBySome(hs, key)
    ensures TakenBySome(hs[i := h], key)
  {
    hide Took, Handler.Key;
    var j :| 0 <= j < |hs| && Took(hs[j]) && hs[j].Key() == key;
    assert Took(hs[i := h][j]);
  }

  lemma KeysTakenAdvance(s: State, i: nat, o: Outcome)
    requires KeysTaken(s) && AllCoherent(s) && Active(s, i)
    ensures KeysTaken(Apply(s, Advance(i, o)))
  {
    hide HandlerStep, Shaped, Took, MissedKey, Handler.Key, Coherent, TakenBySome;
    var n := ApplyAdvance(s, i, o);
    var hs, h := s.handlers[i := n.handler], s.handlers[i];
    MovesTake(s.shared, i, h, n);
    forall key | key in n.shared.locks
      ensures TakenBySome(hs, key)
    {
      if key in s.shared.locks {
        StillTaken(s.handlers, i, n.handler, key);
      } else {
        TakenByThis(hs, i, key);
      }
    }
    forall j | 0 <= j < |hs| && MissedKey(hs[j])
      ensures TakenBySome(hs, hs[j].Key())
    {
      if j == i {
        MissesFindKey(s.shared, i, h, o, n);
        assert h.Key() == hs[j].Key();
      }
      StillTaken(s.handlers, i, n.handler, hs[j].Key());
    }
  }

  lemma TakenByThis(hs: seq<Handler>, i: nat, key: string)
    requires i < |hs| && Took(hs[i]) && hs[i].Key() == key
    ensures TakenBySome(hs, key)
  {
  }

  lemma FreshMissedNothing(h: Handler)
    requires IsFresh(h)
    ensures !MissedKey(h)
  {
  }

  lemma MoreHandlers(hs: seq<Handler>, h: Handler, key: string)
    requires TakenBySome(hs, key)
    ensures TakenBySome(hs + [h], key)
  {
    hide Took, Handler.Key;
    var j :| 0 <= j < |hs| && Took(hs[j]) && hs[j].Key() == key;
    assert Took((hs + [h])[j]);
  }

  lemma KeysTakenSpawn(s: State, h: Handler)
    requires KeysTaken(s)
    ensures KeysTaken(Apply(s, Spawn(h)))
  {
    if IsFresh(h) {
      FreshMissedNothing(h);
      hide MissedKey, TakenBySome, IsFresh, Handler.Key;
      var t := Apply(s, Spawn(h));
      forall key | key in t.shared.locks
        ensures TakenBySome(t.handlers, key)
      {
        MoreHandlers(s.handlers, h, key);
      }
      forall i | 0 <= i < |t.handlers| && MissedKey(t.handlers[i])
        ensures TakenBySome(t.handlers, t.handlers[i].Key())
      {
        MoreHandlers(s.handlers, h, t.handlers[i].Key());
      }
    }
  }

  lemma KeysTakenStep(s: State, l: Label)
    requires KeysTaken(s) && AllCoherent(s)
    ensures KeysTaken(Apply(s, l))
  {
    match l
    case Spawn(h) => KeysTakenSpawn(s, h);
    case Advance(i, o) =>
      if Active(s, i) {
        KeysTakenAdvance(s, i, o);
      }
    case _ => KeysTakenOther(s, l);
  }

  lemma KeysTakenOther(s: State, l: Label)
    requires KeysTaken(s) && !l.Spawn? && !l.Advance?
    ensures KeysTaken(Apply(s, l))
  {
    hide MissedKey, TakenBySome, FindById, Bind, Handler.Key;
  }

  /** In every reachable state each key that is set, and each key that a handler missed, was taken by some handler. */
  lemma {:induction false} KeysTakenThroughout(labels: seq<Label>)
    ensures KeysTaken(Run(INIT, labels))
    decreases |labels|
  {
    hide Apply, AllCoherent;
    if labels != [] {
      var before := labels[..|labels| - 1];
      KeysTakenThroughout(before);
      CoherentThroughout(before);
      KeysTakenStep(Run(INIT, before), labels[|labels| - 1]);
    }
  }

  // ---------- What can go wrong with a taker ----------

  /** The lock was set by a call that threw; the handler stopped before its update; its read threw or found no row; its
      configuration or signature check failed; its update threw without effect. */
  datatype Fault = BlindAcquisition | Stopped | LostRead | BadSignature | LostUpdate

  function ExitFault(exit: Exit): Option<Fault> {
    match exit
    case LockFailed(_) => Some(BlindAcquisition)
    case ReadFailed(_) => Some(LostRead)
    case ConfigFailed(_) => Some(BadSignature)
    case UpdateFailed(_, applied) => if applied then None else Some(LostUpdate)
    case _ => None
  }

  /** The fault of a taker that takes no further step. */
  function FaultOf(h: Handler): Option<Fault>
    requires h.Callback?
  {
    match h.cpc
    case AwaitRead => Some(Stopped)
    case AwaitConfig(_) => Some(Stopped)
    case AwaitUpdate(_, _) => Some(Stopped)
    case AwaitRelease(exit) => ExitFault(exit)
    case CallbackDone(exit, _) => ExitFault(exit)
    case _ => None
  }

  /** Whoever took this key has no fault but these. */
  predicate FaultsWithin(hs: seq<Handler>, key: string, faults: set<Fault>) {
    forall i :: 0 <= i < |hs| && Took(hs[i]) && hs[i].Key() == key ==>
      FaultOf(hs[i]).None? || FaultOf(hs[i]).value in faults
  }

  /** No partner name has a colon: so it is for every dispatched webhook. */
  predicate ColonFree(hs: seq<Handler>) {
    forall i :: 0 <= i < |hs| && hs[i].Callback? ==> ':' !in hs[i].partner
  }

  /** A taker without a fault has written the row or seen it processed. */
  lemma FaultlessTaker(h: Handler)
    requires Took(h) && FaultOf(h).None? && Coherent(h)
    ensures SawProcessed(h) || Weight(h, CallbackWrites(h.Id())) > 0
  {
    hide ExtractTransactionId, BuildCallbackLockKey, ExtractStatusFromCallback;
  }

  lemma SameKeySameId(h: Handler, g: Handler)
    requires h.Callback? && g.Callback? && ':' !in h.partner && ':' !in g.partner && h.Key() == g.Key()
    ensures h.Id() == g.Id()
  {
    hide ExtractTransactionId, BuildCallbackLockKey;
    LockKeysSeparate(h.partner, h.Id(), g.partner, g.Id());
  }

  /** A miss is made good by takers without faults: the transaction is processed. */
  lemma {:induction false} MissIsMadeGood(labels: seq<Label>, i: nat)
    requires var s := Run(INIT, labels);
             && i < |s.handlers| && MissedKey(s.handlers[i]) && ColonFree(s.handlers)
             && FaultsWithin(s.handlers, s.handlers[i].Key(), {}) && NeverReset(s.log, s.handlers[i].Id())
    ensures RowProcessed(Run(INIT, labels), Run(INIT, labels).handlers[i].Id())
  {
    var s := Run(INIT, labels);
    var h := s.handlers[i];
    KeysTakenThroughout(labels);
    CoherentThroughout(labels);
    SeenThroughout(labels);
    hide Run, RowProcessed, NeverReset, SawProcessed, Weight, Occurs, Tally, Handler.Id, Handler.Key, Coherent, FaultOf, Took;
    var j :| 0 <= j < |s.handlers| && Took(s.handlers[j]) && s.handlers[j].Key() == h.Key();
    FaultlessTaker(s.handlers[j]);
    TookIsCallback(s.handlers[j]);
    SameKeySameId(h, s.handlers[j]);
    LogCountsAreTallies(labels, CallbackWrites(h.Id()));
    TallyAtLeast(s.handlers, j, CallbackWrites(h.Id()));
    ProcessedIffWritten(labels, h.Id());
  }

  lemma TookIsCallback(h: Handler)
    ensures Took(h) || MissedKey(h) ==> h.Callback?
  {
  }

  // ---------- Every fault makes an acknowledgement false ----------

  function Webhook(pc: CallbackPc): Handler {
    Callback(BRITAM, Body(COMPLETED), 0, pc)
  }

  const LOSER: Handler := Webhook(CallbackDone(Missed(ROW), NotHeld))

  function Pair(pc: CallbackPc): seq<Handler> {
    READY.handlers + [Webhook(pc), LOSER]
  }

  /** All is over: one webhook took the lock and suffered this fault, another missed it and was acknowledged, and the row
      is as it was created. */
  ghost predicate InVain(s: State, fault: Fault) {
    && |s.handlers| == 3 && s.handlers[1].Callback? && s.handlers == Pair(s.handlers[1].cpc) && !Active(s, 1)
    && Took(s.handlers[1]) && FaultOf(s.handlers[1]) == Some(fault)
    && s.shared.rows == READY.shared.rows && NeverReset(s.log, ID)
  }

  /** The winner has failed and is about to release its lock. */
  ghost predicate Failing(s: State, exit: Exit) {
    && s.handlers == Pair(AwaitRelease(exit)) && s.crashed == {}
    && s.shared.rows == READY.shared.rows && NeverReset(s.log, ID)
  }

  lemma ReleaseInVain(s: State, exit: Exit, fault: Fault)
    requires Failing(s, exit) && ExitFault(exit) == Some(fault)
    ensures InVain(Apply(s, Advance(1, Ok)), fault)
  {
    hide Body, BuildCallbackLockKey, ExtractTransactionId;
    var n := ApplyAdvance(s, 1, Ok);
    assert s.handlers[1 := n.handler] == Pair(n.handler.cpc);
  }

  const BEATEN: State := LOCKED.(handlers := Pair(AwaitRead))

  lemma LoserReads()
    ensures Run(LOCKED, [Advance(2, Ok)]) == BEATEN
  {
    SetupRuns();
    BodyFacts(COMPLETED);
    hide Run, Body, BuildCallbackLockKey, ExtractTransactionId, FindById, WellFormed;
    OneStep(LOCKED, Advance(2, Ok));
  }

  /** What happens to the winner after that. */
  function Tail(fault: Fault): seq<Label> {
    match fault
    case BlindAcquisition => []
    case Stopped => [Crash(1)]
    case LostRead => [Advance(1, Throws(false)), Advance(1, Ok)]
    case BadSignature => [Advance(1, Ok), Advance(1, Rejected), Advance(1, Ok)]
    case LostUpdate => [Advance(1, Ok), Advance(1, Ok)] + [Advance(1, Throws(false)), Advance(1, Ok)]
  }

  lemma StoppedInVain()
    ensures InVain(Run(BEATEN, Tail(Stopped)), Stopped)
  {
    hide Run, Body, BuildCallbackLockKey;
    OneStep(BEATEN, Crash(1));
  }

  lemma ReadFails()
    ensures Failing(Apply(BEATEN, Advance(1, Throws(false))), ReadFailed(Unavailable))
  {
    hide Body, BuildCallbackLockKey, ExtractTransactionId, FindById;
  }

  lemma LostReadInVain()
    ensures InVain(Run(BEATEN, Tail(LostRead)), LostRead)
  {
    hide Run, Apply, Failing, InVain, BEATEN;
    TwoSteps(BEATEN, Advance(1, Throws(false)), Advance(1, Ok));
    ReadFails();
    ReleaseInVain(Apply(BEATEN, Advance(1, Throws(false))), ReadFailed(Unavailable), LostRead);
  }

  const CONFIGURING: State :=
    BEATEN.(shared := BEATEN.shared.(metrics := Metrics(1, 1, 0, 0, 0)), handlers := Pair(AwaitConfig(ROW)),
            log := BEATEN.log + [Did(1, ID, ReadUnprocessed)])

  lemma WinnerReads()
    ensures Apply(BEATEN, Advance(1, Ok)) == CONFIGURING
  {
    SetupRuns();
    BodyFacts(COMPLETED);
    hide Body, BuildCallbackLockKey, ExtractTransactionId, FindById, WellFormed;
  }

  lemma SignatureFails()
    ensures Failing(Apply(CONFIGURING, Advance(1, Rejected)), ConfigFailed(InvalidCallbackSignature))
  {
    hide Body, BuildCallbackLockKey, ExtractTransactionId, FindById;
  }

  lemma BadSignatureInVain()
    ensures InVain(Run(BEATEN, Tail(BadSignature)), BadSignature)
  {
    hide Run, Apply, Failing, InVain, BEATEN, CONFIGURING;
    ThreeSteps(BEATEN, Advance(1, Ok), Advance(1, Rejected), Advance(1, Ok));
    WinnerReads();
    SignatureFails();
    ReleaseInVain(Apply(CONFIGURING, Advance(1, Rejected)), ConfigFailed(InvalidCallbackSignature), BadSignature);
  }

  const WRITING: State :=
    CONFIGURING.(handlers := Pair(AwaitUpdate(ROW, COMPLETED)), log := CONFIGURING.log + [Did(1, ID, Validated)])

  lemma WinnerValidates()
    ensures Apply(CONFIGURING, Advance(1, Ok)) == WRITING
  {
    BodyFacts(COMPLETED);
    hide Body, BuildCallbackLockKey, ExtractTransactionId, ExtractStatusFromCallback, FindById;
  }

  lemma UpdateFails()
    ensures Failing(Apply(WRITING, Advance(1, Throws(false))), UpdateFailed(COMPLETED, false))
  {
    hide Body, BuildCallbackLockKey, ExtractTransactionId, FindById, UpdateWhere;
  }

  lemma LostUpdateInVain()
    ensures InVain(Run(BEATEN, Tail(LostUpdate)), LostUpdate)
  {
    hide Run, Apply, Failing, InVain, BEATEN, CONFIGURING, WRITING;
    RunConcat(BEATEN, [Advance(1, Ok), Advance(1, Ok)], [Advance(1, Throws(false)), Advance(1, Ok)]);
    TwoSteps(BEATEN, Advance(1, Ok), Advance(1, Ok));
    TwoSteps(WRITING, Advance(1, Throws(false)), Advance(1, Ok));
    WinnerReads();
    WinnerValidates();
    UpdateFails();
    ReleaseInVain(Apply(WRITING, Advance(1, Throws(false))), UpdateFailed(COMPLETED, false), LostUpdate);
  }

  /** The winner's `SET` takes effect although the call throws. */
  const BLIND: seq<Label> := [Spawn(WINNER), Spawn(WINNER)] + [Advance(1, Throws(true)), Advance(2, Ok), Advance(2, Ok)]

  const SET_BLINDLY: State :=
    READY.(shared := READY.shared.(locks := map[WINNER.Key() := Lock(1, TTL)], metrics := Metrics(1, 0, 0, 0, 1)),
           handlers := READY.handlers + [Webhook(CallbackDone(LockFailed(true), NotHeld)), WINNER],
           log := READY.log + [Did(1, ID, AcquiredBlindly)])

  lemma WinnerSetsBlindly()
    ensures Apply(READY.(handlers := READY.handlers + [WINNER, WINNER]), Advance(1, Throws(true))) == SET_BLINDLY
  {
    BodyFacts(COMPLETED);
    hide Body, BuildCallbackLockKey, ExtractTransactionId;
  }

  lemma LoserMissesBlindly()
    ensures InVain(Apply(Apply(SET_BLINDLY, Advance(2, Ok)), Advance(2, Ok)), BlindAcquisition)
  {
    SetupRuns();
    BodyFacts(COMPLETED);
    hide Run, Body, BuildCallbackLockKey, ExtractTransactionId, FindById, WellFormed;
    var u := SET_BLINDLY.(handlers := READY.handlers + [SET_BLINDLY.handlers[1], Webhook(AwaitMissRead)]);
    assert Apply(SET_BLINDLY, Advance(2, Ok)) == u;
    assert Apply(u, Advance(2, Ok)).handlers == Pair(CallbackDone(LockFailed(true), NotHeld));
  }

  lemma BlindInVain()
    ensures InVain(Run(READY, BLIND), BlindAcquisition)
  {
    var s := READY.(handlers := READY.handlers + [WINNER, WINNER]);
    BodyFacts(COMPLETED);
    TwoSpawns(READY, WINNER, WINNER);
    hide Run, Apply, InVain, READY, SET_BLINDLY, WINNER;
    RunConcat(READY, [Spawn(WINNER), Spawn(WINNER)], [Advance(1, Throws(true)), Advance(2, Ok), Advance(2, Ok)]);
    ThreeSteps(s, Advance(1, Throws(true)), Advance(2, Ok), Advance(2, Ok));
    WinnerSetsBlindly();
    LoserMissesBlindly();
  }

  lemma EachFaultIsInVain(fault: Fault) returns (labels: seq<Label>)
    ensures InVain(Run(INIT, labels), fault)
  {
    SetupRuns();
    hide Run, SETUP, READY, InVain, FindById, WellFormed, BLIND, Tail, LOCKED, BEATEN, WINNER;
    if fault == BlindAcquisition {
      BlindInVain();
      labels := SETUP + BLIND;
      RunConcat(INIT, SETUP, BLIND);
    } else {
      BothTry();
      LoserReads();
      var tries := [Spawn(WINNER), Spawn(WINNER)] + [Advance(1, Ok), Advance(2, Ok)];
      labels := SETUP + (tries + ([Advance(2, Ok)] + Tail(fault)));
      RunConcat(INIT, SETUP, tries + ([Advance(2, Ok)] + Tail(fault)));
      RunConcat(READY, tries, [Advance(2, Ok)] + Tail(fault));
      RunConcat(LOCKED, [Advance(2, Ok)], Tail(fault));
      match fault
      case Stopped => StoppedInVain();
      case LostRead => LostReadInVain();
      case BadSignature => BadSignatureInVain();
      case LostUpdate => LostUpdateInVain();
    }
  }

  // ---------- The exact condition ----------

  /** A finished run without a reset in which webhook `i` was acknowledged and the takers of its key suffered no fault
      but these. */
  ghost predicate AtRest(s: State, i: nat, faults: set<Fault>) {
    && Idle(s) && ColonFree(s.handlers)
    && i < |s.handlers| && Acknowledged(s.handlers[i])
    && NeverReset(s.log, s.handlers[i].Id()) && FaultsWithin(s.handlers, s.handlers[i].Key(), faults)
  }

  /** Every acknowledgement is true of the row when all is over, as long as takers suffer no fault but these. */
  ghost predicate AcknowledgementsHold(faults: set<Fault>) {
    forall labels, i: nat :: i < |Run(INIT, labels).handlers| && AtRest(Run(INIT, labels), i, faults) ==>
      RowProcessed(Run(INIT, labels), Run(INIT, labels).handlers[i].Id())
  }

  lemma FaultlessAcknowledgement(labels: seq<Label>, i: nat)
    requires AtRest(Run(INIT, labels), i, {})
    ensures RowProcessed(Run(INIT, labels), Run(INIT, labels).handlers[i].Id())
  {
    var s := Run(INIT, labels);
    var h := s.handlers[i];
    hide Run, Idle, RowProcessed, ColonFree, FaultsWithin, NeverReset, Handler.Id, Handler.Key;
    if GroundOf(h.cpc.exit) != NothingSeen {
      AcknowledgedIsProcessed(labels, i, GroundOf(h.cpc.exit));
    } else {
      AcknowledgedMiss(h);
      MissIsMadeGood(labels, i);
    }
  }

  lemma AcknowledgedMiss(h: Handler)
    requires AcknowledgedOn(h, NothingSeen)
    ensures MissedKey(h)
  {
    hide Handler.Id;
  }

  lemma LoserFacts()
    ensures LOSER.Id() == ID && Acknowledged(LOSER) && !Took(LOSER)
  {
    BodyFacts(COMPLETED);
    hide Body;
  }

  lemma InVainIsOver(s: State, fault: Fault)
    requires InVain(s, fault)
    ensures Idle(s) && ColonFree(s.handlers) && s.handlers[2] == LOSER
    ensures !Took(s.handlers[0])
  {
    hide Body, FaultOf;
  }

  lemma InVainIsAtRest(s: State, fault: Fault, faults: set<Fault>)
    requires InVain(s, fault) && fault in faults
    ensures |s.handlers| == 3 && AtRest(s, 2, faults) && s.handlers[2].Id() == ID && !RowProcessed(s, ID)
  {
    SetupRuns();
    LoserFacts();
    InVainIsOver(s, fault);
    hide Run, LOSER, Pair, FindById, WellFormed, FaultOf, Took, Acknowledged, Idle, ColonFree, Handler.Id, Handler.Key;
  }

  /** Webhooks that miss the lock are acknowledged with `processed: true` on trust. The trust is justified, in every run
      that has come to rest, exactly if no taker of the lock suffers any of the five faults: each fault alone leaves an
      acknowledged transaction unprocessed. */
  lemma AcknowledgementsHoldIff(faults: set<Fault>)
    ensures AcknowledgementsHold(faults) <==> faults == {}
  {
    hide Run, AtRest, RowProcessed, InVain, Handler.Id;
    if faults == {} {
      forall labels, i: nat | i < |Run(INIT, labels).handlers| && AtRest(Run(INIT, labels), i, faults)
        ensures RowProcessed(Run(INIT, labels), Run(INIT, labels).handlers[i].Id())
      {
        FaultlessAcknowledgement(labels, i);
      }
    } else {
      var fault :| fault in faults;
      var labels := EachFaultIsInVain(fault);
      InVainIsAtRest(Run(INIT, labels), fault, faults);
    }
  }
}
