/** Runs that lose a guarantee because a hypothesis of the main results fails: initiations that overlap, and a holder
    that outstays its lock. */
module Hypotheses {
  import opened Wrappers
  import opened PaymentDomain
  import opened PaymentTable
  import opened World
  import opened Protocol
  import opened ControlFlow
  import opened History
  import opened LockSafety
  import opened RowLife
  import opened EffectivelyOnce
  import opened Identity
  import opened InitiationRaces
  import opened Scenarios

  // ---------- Overlapping initiations ----------

  function Leave(i: nat): seq<Label> {
    [Advance(i, Ok), Advance(i, Ok), Advance(i, Ok)]
  }

  /** The state after callback `i` has published, notified and released its lock. */
  function Left(s: State, i: nat, partner: string, word: string, row: Row): State
    requires i < |s.handlers|
  {
    var m := s.shared.metrics;
    s.(shared := s.shared.(broker := s.shared.broker + [AttemptFor(row, word, true)],
                           notices := s.shared.notices + [NoticeFor(row, word, true)],
                           locks := s.shared.locks - {Hook(partner, word).Key()},
                           metrics := m.(processed := m.processed + 1,
                                         succeeded := m.succeeded + if word == COMPLETED then 1 else 0)),
       handlers := s.handlers[i := Callback(partner, Body(word), s.shared.now,
                                          CallbackDone(Processed(row, word), Freed(Some(i))))],
       log := s.log + [Did(i, ID, PublishedCallback(word)), Did(i, ID, Notified(word)), Did(i, ID, Deleted(Some(i)))])
  }

  lemma LeaveRuns(s: State, i: nat, partner: string, word: string, row: Row)
    requires i < |s.handlers| && i !in s.crashed && IsTerminal(word)
    requires s.handlers[i] == Callback(partner, Body(word), s.shared.now, AwaitPublish(row, word))
    requires Hook(partner, word).Key() in s.shared.locks && s.shared.locks[Hook(partner, word).Key()].owner == i
    ensures Run(s, Leave(i)) == Left(s, i, partner, word, row)
  {
    BodyFacts(word);
    hide BuildCallbackLockKey, ExtractTransactionId, IsTerminal, Body, AttemptFor, NoticeFor, Run;
    var h, m := s.handlers[i], s.shared.metrics;
    var announced := s.shared.(broker := s.shared.broker + [AttemptFor(row, word, true)]);
    var counted := announced.(notices := s.shared.notices + [NoticeFor(row, word, true)],
                              metrics := m.(processed := m.processed + 1,
                                            succeeded := m.succeeded + if word == COMPLETED then 1 else 0));
    ThreeAdvances(s, i,
      Stepped(announced, h.(cpc := AwaitNotify(row, word)), Some(Did(i, ID, PublishedCallback(word)))),
      Stepped(counted, h.(cpc := AwaitRelease(Processed(row, word))), Some(Did(i, ID, Notified(word)))),
      Stepped(counted.(locks := s.shared.locks - {h.Key()}),
              h.(cpc := CallbackDone(Processed(row, word), Freed(Some(i)))), Some(Did(i, ID, Deleted(Some(i))))));
  }

  /** Two initiations of one reference both look it up before either creates it; the first row is bound and a webhook
      arrives. */
  const OVERLAP: seq<Label> :=
    [Spawn(NewInitiate(REQUEST, MPESA)), Spawn(NewInitiate(REQUEST, MPESA)), Advance(0, Ok), Advance(1, Ok), Advance(0, Ok)]

  const ARRIVAL: seq<Label> := [BindId("REF", ID), Spawn(Hook(BRITAM, COMPLETED))]

  const FIRST_DELIVERY: seq<Label> := Enter(2) + ([Advance(2, Ok)] + Leave(2))

  /** The second initiation creates the row again, and a second webhook arrives. */
  const RECREATION: seq<Label> := [Advance(1, Ok), Spawn(Hook(BRITAM, FAILED))]

  const SECOND_DELIVERY: seq<Label> := Enter(3) + [Advance(3, Ok)]

  const TWO_INITIATIONS: seq<Label> := OVERLAP + (ARRIVAL + (FIRST_DELIVERY + (RECREATION + SECOND_DELIVERY)))

  const ARRIVED: State :=
    State(Shared(map["REF" := ROW], map[], 0, [], [], [], Metrics(2, 0, 0, 0, 0)),
          [Initiate(REQUEST, MPESA, AwaitEnqueue), Initiate(REQUEST, MPESA, AwaitCreate), Hook(BRITAM, COMPLETED)],
          {}, map[], [Created(0, "REF", None)])

  /** The first of the two has created its row. */
  const RACED: State :=
    State(Shared(map["REF" := NewRow(REQUEST, MPESA)], map[], 0, [], [], [], Metrics(2, 0, 0, 0, 0)),
          [Initiate(REQUEST, MPESA, AwaitEnqueue), Initiate(REQUEST, MPESA, AwaitCreate)],
          {}, map[], [Created(0, "REF", None)])

  lemma RaceRuns()
    ensures Run(INIT, OVERLAP) == RACED
  {
    hide FindById;
    var h := NewInitiate(REQUEST, MPESA);
    FiveSteps(INIT, OVERLAP);
    var s2 := INIT.(shared := INIT.shared.(metrics := Metrics(2, 0, 0, 0, 0)), handlers := [h, h]);
    assert Apply(Apply(INIT, OVERLAP[0]), OVERLAP[1]) == s2;
    var s4 := s2.(handlers := [h.(ipc := AwaitCreate), h.(ipc := AwaitCreate)]);
    assert Apply(Apply(s2, OVERLAP[2]), OVERLAP[3]) == s4;
    assert Apply(s4, OVERLAP[4]) == RACED;
  }

  lemma ArrivalRuns()
    ensures Run(RACED, ARRIVAL) == ARRIVED
  {
    BodyFacts(COMPLETED);
    NobodyHasIt(RACED.shared.rows, ID);
    hide FindById, Body, ExtractTransactionId;
    TwoSteps(RACED, ARRIVAL[0], ARRIVAL[1]);
    assert ARRIVAL == [ARRIVAL[0], ARRIVAL[1]];
  }

  lemma OverlapRuns()
    ensures Run(INIT, OVERLAP + ARRIVAL) == ARRIVED
    ensures FindById(ARRIVED.shared.rows, ID) == Some(ROW)
  {
    RaceRuns();
    ArrivalRuns();
    OnlyRow(ARRIVED.shared.rows, "REF", ID);
    hide Run, FindById, WellFormed;
    RunConcat(INIT, OVERLAP, ARRIVAL);
  }

  lemma NobodyHasIt(t: Table, id: string)
    requires forall r :: r in t ==> !HasId(t[r], id)
    ensures FindById(t, id).None?
  {
  }

  const INSIDE: State := Entered(ARRIVED, 2, BRITAM, COMPLETED, ROW)

  const DELIVERED: State := Left(Wrote(INSIDE, 2, BRITAM, COMPLETED, ROW), 2, BRITAM, COMPLETED, ROW)

  const RECREATED: State :=
    DELIVERED.(shared := DELIVERED.shared.(rows := map["REF" := ROW]),
               handlers := DELIVERED.handlers[1 := Initiate(REQUEST, MPESA, AwaitEnqueue)] + [Hook(BRITAM, FAILED)],
               log := DELIVERED.log + [Created(1, "REF", Some(Patched(ROW, CallbackPatch(COMPLETED))))])

  lemma FirstDeliveryRuns()
    ensures Run(ARRIVED, FIRST_DELIVERY) == DELIVERED
  {
    OverlapRuns();
    var written := Wrote(INSIDE, 2, BRITAM, COMPLETED, ROW);
    hide Run, Body, BuildCallbackLockKey, ExtractTransactionId, FindById, UpdateWhere, Enter, Leave;
    RunConcat(ARRIVED, Enter(2), [Advance(2, Ok)] + Leave(2));
    EnterRuns(ARRIVED, 2, BRITAM, COMPLETED, ROW);
    RunConcat(INSIDE, [Advance(2, Ok)], Leave(2));
    WriteRuns(INSIDE, 2, BRITAM, COMPLETED, ROW);
    LeaveRuns(written, 2, BRITAM, COMPLETED, ROW);
  }

  lemma DeliveredRows()
    ensures DELIVERED.shared.rows == map["REF" := Patched(ROW, CallbackPatch(COMPLETED))]
    ensures Upsert(DELIVERED.shared.rows, NewRow(REQUEST, MPESA)) == map["REF" := ROW]
    ensures DELIVERED.handlers[1] == Initiate(REQUEST, MPESA, AwaitCreate) && DELIVERED.crashed == {}
  {
    hide Body, BuildCallbackLockKey, ExtractTransactionId;
  }

  lemma RecreationRuns()
    ensures Run(DELIVERED, RECREATION) == RECREATED
  {
    DeliveredRows();
    BodyFacts(FAILED);
    hide DELIVERED, Body, ExtractTransactionId, Upsert;
    TwoSteps(DELIVERED, Advance(1, Ok), Spawn(Hook(BRITAM, FAILED)));
  }

  lemma SecondDeliveryRuns()
    ensures Run(RECREATED, SECOND_DELIVERY) ==
            Wrote(Entered(RECREATED, 3, BRITAM, FAILED, ROW), 3, BRITAM, FAILED, ROW)
  {
    OverlapRuns();
    hide Run, Body, ExtractTransactionId, FindById, UpdateWhere, Enter, EventFor, NoticeFor;
    assert Hook(BRITAM, FAILED).Key() !in RECREATED.shared.locks by { SameKeyFreed(); }
    RunConcat(RECREATED, Enter(3), [Advance(3, Ok)]);
    EnterRuns(RECREATED, 3, BRITAM, FAILED, ROW);
    WriteRuns(Entered(RECREATED, 3, BRITAM, FAILED, ROW), 3, BRITAM, FAILED, ROW);
  }

  lemma SameKeyFreed()
    ensures Hook(BRITAM, FAILED).Key() !in RECREATED.shared.locks
  {
    BodyFacts(FAILED);
    BodyFacts(COMPLETED);
    hide Body, BuildCallbackLockKey, ExtractTransactionId;
  }

  lemma TwoInitiationsRun()
    ensures Run(INIT, TWO_INITIATIONS) == Wrote(Entered(RECREATED, 3, BRITAM, FAILED, ROW), 3, BRITAM, FAILED, ROW)
  {
    OverlapRuns();
    FirstDeliveryRuns();
    RecreationRuns();
    SecondDeliveryRuns();
    hide Run, OVERLAP, ARRIVAL, FIRST_DELIVERY, RECREATION, SECOND_DELIVERY, ARRIVED, DELIVERED, RECREATED;
    RunConcat(INIT, OVERLAP, ARRIVAL + (FIRST_DELIVERY + (RECREATION + SECOND_DELIVERY)));
    RunConcat(Run(INIT, OVERLAP), ARRIVAL, FIRST_DELIVERY + (RECREATION + SECOND_DELIVERY));
    RunConcat(INIT, OVERLAP, ARRIVAL);
    RunConcat(ARRIVED, FIRST_DELIVERY, RECREATION + SECOND_DELIVERY);
    RunConcat(DELIVERED, RECREATION, SECOND_DELIVERY);
  }

  lemma TwoInitiationsLog()
    ensures Run(INIT, TWO_INITIATIONS).log ==
            [Created(0, "REF", None),
             Did(2, ID, Acquired), Did(2, ID, ReadUnprocessed), Did(2, ID, Validated),
             Did(2, ID, WroteCallback(COMPLETED, true)),
             Did(2, ID, PublishedCallback(COMPLETED)), Did(2, ID, Notified(COMPLETED)), Did(2, ID, Deleted(Some(2))),
             Created(1, "REF", Some(Patched(ROW, CallbackPatch(COMPLETED)))),
             Did(3, ID, Acquired), Did(3, ID, ReadUnprocessed), Did(3, ID, Validated), Did(3, ID, WroteCallback(FAILED, true))]
  {
    TwoInitiationsRun();
    hide Run, Body, UpdateWhere, BuildCallbackLockKey, TWO_INITIATIONS;
  }

  lemma TwoInitiationsHandlers()
    ensures var hs := Run(INIT, TWO_INITIATIONS).handlers;
            |hs| == 4 && hs[2].Callback? && hs[3].Callback? && OnlyPartners(hs, ID, [BRITAM])
  {
    TwoInitiationsRun();
    hide Run, Body, UpdateWhere, BuildCallbackLockKey, ExtractTransactionId, TWO_INITIATIONS;
  }

  lemma KindsStep(s: State, l: Label)
    ensures |s.handlers| <= |Apply(s, l).handlers|
    ensures forall i :: 0 <= i < |s.handlers| ==> (Apply(s, l).handlers[i].Initiate? <==> s.handlers[i].Initiate?)
  {
    hide HandlerStep, IsFresh, FindById;
    if l.Advance? && Active(s, l.who) {
      SameKind(s.shared, l.who, s.handlers[l.who], l.outcome);
    }
  }

  lemma SameKind(sh: Shared, me: nat, h: Handler, o: Outcome)
    ensures HandlerStep(sh, me, h, o).handler.Initiate? <==> h.Initiate?
  {
    hide LockStep, MissReadStep, ReadStep, FindById;
  }

  lemma {:induction false} KindsStay(s: State, labels: seq<Label>)
    ensures |s.handlers| <= |Run(s, labels).handlers|
    ensures forall i :: 0 <= i < |s.handlers| ==> (Run(s, labels).handlers[i].Initiate? <==> s.handlers[i].Initiate?)
    decreases |labels|
  {
    hide Apply;
    if labels != [] {
      KindsStay(s, labels[..|labels| - 1]);
      KindsStep(Run(s, labels[..|labels| - 1]), labels[|labels| - 1]);
    }
  }

  lemma SubsetSize(s: set<nat>)
    requires s <= {0, 1}
    ensures |s| <= 2
  {
    assert |{0, 1} - s| == |{0, 1}| - |s|;
  }

  lemma TwoInitiationsOverlap()
    ensures NeverMoreThan(TWO_INITIATIONS, 2)
  {
    TwoInitiationsHandlers();
    hide Run, TWO_INITIATIONS;
    forall k, reference | 0 <= k <= |TWO_INITIATIONS|
      ensures |Underway(Run(INIT, TWO_INITIATIONS[..k]), reference)| <= 2
    {
      assert TWO_INITIATIONS == TWO_INITIATIONS[..k] + TWO_INITIATIONS[k..];
      RunConcat(INIT, TWO_INITIATIONS[..k], TWO_INITIATIONS[k..]);
      KindsStay(Run(INIT, TWO_INITIATIONS[..k]), TWO_INITIATIONS[k..]);
      SubsetSize(Underway(Run(INIT, TWO_INITIATIONS[..k]), reference));
    }
  }

  /** Two overlapping initiations of one reference: the second `create` is an upsert that puts the row back to pending
      and unprocessed, and one partner's callbacks then write the transaction twice, with different outcomes, although
      no lock ever expired. The bound of one write needs rows that are not re-created. */
  lemma OverlappingInitiationsWriteTwice()
    ensures var s := Run(INIT, TWO_INITIATIONS);
            && NeverMoreThan(TWO_INITIATIONS, 2)
            && !NeverReset(s.log, ID) && !NeverRecreated(s.log, "REF") && OnlyPartners(s.handlers, ID, [BRITAM])
            && Occurs(s.log, Expiries(BuildCallbackLockKey(BRITAM, ID))) == 0
            && Did(2, ID, WroteCallback(COMPLETED, true)) in s.log && Did(3, ID, WroteCallback(FAILED, true)) in s.log
            && Occurs(s.log, CallbackWrites(ID)) >= 2
  {
    TwoInitiationsHandlers();
    TwoInitiationsOverlap();
    TwoInitiationsLog();
    var s := Run(INIT, TWO_INITIATIONS);
    hide Run, OnlyPartners, TWO_INITIATIONS, NeverMoreThan, BuildCallbackLockKey;
    assert s.log[4] in s.log && s.log[12] in s.log && s.log[8] in s.log && Resets(s.log[8], ID);
    TwoInTheLog(s.log, 4, 12, CallbackWrites(ID));
    NoneExpired(s.log, BuildCallbackLockKey(BRITAM, ID));
  }

  lemma {:induction false} NoneExpired(log: seq<Event>, key: string)
    requires forall e :: e in log ==> !e.Expired?
    ensures Occurs(log, Expiries(key)) == 0
    decreases |log|
  {
    if log != [] {
      NoneExpired(log[..|log| - 1], key);
    }
  }

  /** While at most `n` initiations of a reference are under way together, no row is put back. */
  ghost predicate NothingReset(n: nat) {
    forall labels, id :: NeverMoreThan(labels, n) ==> NeverReset(Run(INIT, labels).log, id)
  }

  /** While at most `n` initiations of a reference are under way together, no row is created twice. */
  ghost predicate NothingRecreated(n: nat) {
    forall labels, reference :: NeverMoreThan(labels, n) ==> NeverRecreated(Run(INIT, labels).log, reference)
  }

  /** While at most `n` initiations of a reference are under way together, one partner's callbacks write once unless a
      lock expires. */
  ghost predicate OneWriteWhile(n: nat) {
    forall labels, id, partner {:trigger NeverMoreThan(labels, n), BuildCallbackLockKey(partner, id)} ::
      && NeverMoreThan(labels, n) && OnlyPartners(Run(INIT, labels).handlers, id, [partner])
      && Occurs(Run(INIT, labels).log, Expiries(BuildCallbackLockKey(partner, id))) == 0
      ==> Occurs(Run(INIT, labels).log, CallbackWrites(id)) <= 1
  }

  lemma OneInitiationSuffices(labels: seq<Label>, n: nat, id: string, reference: string, partner: string)
    requires NeverMoreThan(labels, n) && n <= 1
    ensures NeverReset(Run(INIT, labels).log, id) && NeverRecreated(Run(INIT, labels).log, reference)
    ensures OnlyPartners(Run(INIT, labels).handlers, id, [partner]) &&
            Occurs(Run(INIT, labels).log, Expiries(BuildCallbackLockKey(partner, id))) == 0 ==>
              Occurs(Run(INIT, labels).log, CallbackWrites(id)) <= 1
  {
    hide Run, NeverMoreThan, OnlyPartners, BuildCallbackLockKey;
    OneNeverOverlaps(labels, n);
    NoOverlapNoReset(labels, reference, id);
    if OnlyPartners(Run(INIT, labels).handlers, id, [partner]) &&
       Occurs(Run(INIT, labels).log, Expiries(BuildCallbackLockKey(partner, id))) == 0 {
      CallbacksAreEffectivelyOnce(labels, id, partner);
    }
  }

  /** `initiate` protects its row, and the callbacks of that row, exactly as long as no two initiations of one reference
      overlap. */
  lemma OverlapIsTheLimit(n: nat)
    ensures NothingReset(n) <==> n <= 1
    ensures NothingRecreated(n) <==> n <= 1
    ensures OneWriteWhile(n) <==> n <= 1
  {
    hide Run, NeverMoreThan, TWO_INITIATIONS, OnlyPartners, NeverReset, NeverRecreated, BuildCallbackLockKey;
    if n <= 1 {
      forall labels, id | NeverMoreThan(labels, n)
        ensures NeverReset(Run(INIT, labels).log, id)
      {
        OneInitiationSuffices(labels, n, id, "", "");
      }
      forall labels, reference | NeverMoreThan(labels, n)
        ensures NeverRecreated(Run(INIT, labels).log, reference)
      {
        OneInitiationSuffices(labels, n, "", reference, "");
      }
      forall labels, id, partner | NeverMoreThan(labels, n)
        ensures OnlyPartners(Run(INIT, labels).handlers, id, [partner]) &&
                Occurs(Run(INIT, labels).log, Expiries(BuildCallbackLockKey(partner, id))) == 0 ==>
                  Occurs(Run(INIT, labels).log, CallbackWrites(id)) <= 1
      {
        OneInitiationSuffices(labels, n, id, "", partner);
      }
    } else {
      OverlappingInitiationsWriteTwice();
      MoreMayOverlap(TWO_INITIATIONS, 2, n);
    }
  }

  lemma MoreMayOverlap(labels: seq<Label>, few: nat, many: nat)
    requires NeverMoreThan(labels, few) && few <= many
    ensures NeverMoreThan(labels, many)
  {
    hide Run, Underway;
  }

  // ---------- A holder that outstays its lock ----------

  function Ticks(n: nat): seq<Label> {
    seq(n, _ => Tick)
  }

  lemma {:induction false} TicksRun(s: State, n: nat)
    requires forall k :: k in s.shared.locks ==> s.shared.now + n <= s.shared.locks[k].deadline
    ensures Run(s, Ticks(n)) == s.(shared := s.shared.(now := s.shared.now + n))
    decreases n
  {
    if n != 0 {
      TicksRun(s, n - 1);
      assert Ticks(n)[..n - 1] == Ticks(n - 1);
    }
  }

  const HOOK: Handler := Hook(BRITAM, COMPLETED)

  const KEY: string := HOOK.Key()

  const OVERSTAY: seq<Label> :=
    ([Spawn(HOOK), Spawn(HOOK)] + [Advance(0, Ok)]) + (Ticks(TTL) + [Expire(KEY), Advance(1, Ok)])

  const LATE_EXIT: seq<Label> := [Advance(0, Ok), Advance(0, Ok)]

  /** Both handlers are in the locked region of one key. */
  const BOTH_INSIDE: State :=
    INIT.(shared := INIT.shared.(now := TTL, locks := map[KEY := Lock(1, TTL + TTL)]),
          handlers := [HOOK.(since := 0, cpc := AwaitRead), HOOK.(since := TTL, cpc := AwaitRead)],
          log := [Did(0, ID, Acquired), Expired(KEY), Did(1, ID, Acquired)])

  const FIRST_INSIDE: State :=
    INIT.(shared := INIT.shared.(locks := map[KEY := Lock(0, TTL)]),
          handlers := [HOOK.(since := 0, cpc := AwaitRead), HOOK], log := [Did(0, ID, Acquired)])

  lemma FirstEnters()
    ensures Run(INIT, [Spawn(HOOK), Spawn(HOOK)] + [Advance(0, Ok)]) == FIRST_INSIDE
  {
    BodyFacts(COMPLETED);
    hide Run, Body, BuildCallbackLockKey, ExtractTransactionId;
    RunConcat(INIT, [Spawn(HOOK), Spawn(HOOK)], [Advance(0, Ok)]);
    TwoSpawns(INIT, HOOK, HOOK);
    OneStep(INIT.(handlers := INIT.handlers + [HOOK, HOOK]), Advance(0, Ok));
  }

  const TIME_IS_UP: State := FIRST_INSIDE.(shared := FIRST_INSIDE.shared.(now := TTL))

  lemma LockExpires()
    ensures Apply(TIME_IS_UP, Expire(KEY)) ==
            TIME_IS_UP.(shared := TIME_IS_UP.shared.(locks := map[]), log := TIME_IS_UP.log + [Expired(KEY)])
  {
    hide HOOK, KEY;
  }

  lemma SecondAcquires()
    ensures Apply(Apply(TIME_IS_UP, Expire(KEY)), Advance(1, Ok)) == BOTH_INSIDE
  {
    LockExpires();
    BodyFacts(COMPLETED);
    hide Body, BuildCallbackLockKey, ExtractTransactionId;
  }

  lemma SecondEnters()
    ensures Run(FIRST_INSIDE, Ticks(TTL) + [Expire(KEY), Advance(1, Ok)]) == BOTH_INSIDE
  {
    SecondAcquires();
    hide Run, Apply, Ticks, HOOK, KEY, BOTH_INSIDE;
    RunConcat(FIRST_INSIDE, Ticks(TTL), [Expire(KEY), Advance(1, Ok)]);
    TicksRun(FIRST_INSIDE, TTL);
    TwoSteps(TIME_IS_UP, Expire(KEY), Advance(1, Ok));
  }

  lemma OverstayRuns()
    ensures Run(INIT, OVERSTAY) == BOTH_INSIDE
  {
    hide Run, Ticks, HOOK, KEY, FIRST_INSIDE, BOTH_INSIDE;
    RunConcat(INIT, [Spawn(HOOK), Spawn(HOOK)] + [Advance(0, Ok)], Ticks(TTL) + [Expire(KEY), Advance(1, Ok)]);
    FirstEnters();
    SecondEnters();
  }

  lemma LateExitRuns()
    ensures var t := Run(BOTH_INSIDE, LATE_EXIT);
            && t.shared.locks == map[] && t.crashed == {} && |t.handlers| == 2 && t.shared.now == TTL
            && t.handlers[1] == BOTH_INSIDE.handlers[1]
            && t.log == BOTH_INSIDE.log + [Did(0, ID, Deleted(Some(1)))]
  {
    BodyFacts(COMPLETED);
    NobodyHasIt(map[], ID);
    hide Run, Body, BuildCallbackLockKey, ExtractTransactionId, FindById;
    TwoSteps(BOTH_INSIDE, Advance(0, Ok), Advance(0, Ok));
    var h := HOOK.(since := 0, cpc := AwaitRelease(ReadFailed(TransactionNotFound)));
    assert Apply(BOTH_INSIDE, Advance(0, Ok)) == BOTH_INSIDE.(handlers := [h, BOTH_INSIDE.handlers[1]]);
  }

  lemma ClockStep(s: State, l: Label)
    ensures Apply(s, l).shared.now >= s.shared.now
  {
    hide HandlerStep, Moves, ReadsTable, IsFresh, FindById;
    if l.Advance? && Active(s, l.who) {
      var n := ApplyAdvance(s, l.who, l.outcome);
    }
  }

  lemma {:induction false} ClockNeverGoesBack(s: State, labels: seq<Label>)
    ensures Run(s, labels).shared.now >= s.shared.now
    decreases |labels|
  {
    hide Apply;
    if labels != [] {
      ClockNeverGoesBack(s, labels[..|labels| - 1]);
      ClockStep(Run(s, labels[..|labels| - 1]), labels[|labels| - 1]);
    }
  }

  /** A run that ends before its clock reads `limit` is prompt for `limit`. */
  lemma ShortRunsArePrompt(labels: seq<Label>, limit: nat)
    requires Run(INIT, labels).shared.now < limit
    ensures PromptThroughout(labels, limit)
  {
    hide Run;
    forall k | 0 <= k <= |labels|
      ensures Prompt(Run(INIT, labels[..k]), limit)
    {
      assert labels == labels[..k] + labels[k..];
      RunConcat(INIT, labels[..k], labels[k..]);
      ClockNeverGoesBack(Run(INIT, labels[..k]), labels[k..]);
    }
  }

  /** A holder that needs thirty seconds loses mutual exclusion: a second handler is inside with it, and its own `DEL`
      then removes the second handler's lock. One expiry gives exactly one holder too many. */
  lemma OverstayingLosesExclusion()
    ensures var s := Run(INIT, OVERSTAY);
            && s.shared.now == TTL && !Exclusive(s)
            && Tally(s.handlers, Holding(KEY)) == 1 + Occurs(s.log, Expiries(KEY)) == 2
    ensures var t := Run(INIT, OVERSTAY + LATE_EXIT);
            && t.shared.now == TTL && !DeletesOwn(t.log)
            && LiveHolder(t, 1) && KEY !in t.shared.locks
  {
    OverstayRuns();
    LateExitRuns();
    BothHold();
    hide Run, Tally, Occurs, OVERSTAY, LATE_EXIT, Body, BuildCallbackLockKey, ExtractTransactionId;
    RunConcat(INIT, OVERSTAY, LATE_EXIT);
    var e := Did(0, ID, Deleted(Some(1)));
    assert e in BOTH_INSIDE.log + [e];
    assert LiveHolder(BOTH_INSIDE, 0) && LiveHolder(BOTH_INSIDE, 1);
    assert BOTH_INSIDE.handlers[0].Key() == BOTH_INSIDE.handlers[1].Key();
  }

  /** Holders that leave within `limit` seconds exclude each other. */
  ghost predicate LimitExcludes(limit: nat) {
    forall labels :: PromptThroughout(labels, limit) ==> Exclusive(Run(INIT, labels))
  }

  /** Holders that leave within `limit` seconds delete only their own locks. */
  ghost predicate LimitDeletesOwn(limit: nat) {
    forall labels :: PromptThroughout(labels, limit) ==> DeletesOwn(Run(INIT, labels).log)
  }

  /** Thirty seconds is the exact limit: a promise to leave within `limit` seconds gives mutual exclusion, and gives
      deletes that only remove one's own lock, if and only if `limit` is no more than the lock's lifetime. */
  lemma {:induction false} LifetimeIsTheLimit(limit: nat)
    ensures LimitExcludes(limit) <==> limit <= TTL
    ensures LimitDeletesOwn(limit) <==> limit <= TTL
  {
    hide Run, PromptThroughout, Exclusive, DeletesOwn, OVERSTAY, LATE_EXIT;
    if limit <= TTL {
      forall labels | PromptThroughout(labels, limit)
        ensures Exclusive(Run(INIT, labels)) && DeletesOwn(Run(INIT, labels).log)
      {
        PromptHoldersExcludeEachOther(labels, limit);
      }
    } else {
      OverstayingLosesExclusion();
      ShortRunsArePrompt(OVERSTAY, limit);
      ShortRunsArePrompt(OVERSTAY + LATE_EXIT, limit);
    }
  }

  lemma BothHold()
    ensures Tally(BOTH_INSIDE.handlers, Holding(KEY)) == 2
    ensures Occurs(BOTH_INSIDE.log, Expiries(KEY)) == 1
  {
    hide Body, BuildCallbackLockKey, ExtractTransactionId;
    var first := BOTH_INSIDE.handlers[0];
    assert BOTH_INSIDE.handlers == [] + [first] + [BOTH_INSIDE.handlers[1]];
    TallyAppend([], first, Holding(KEY));
    TallyAppend([first], BOTH_INSIDE.handlers[1], Holding(KEY));
    var a, b, c := Did(0, ID, Acquired), Expired(KEY), Did(1, ID, Acquired);
    assert BOTH_INSIDE.log == [] + [a] + [b] + [c];
    OccursLogged([], Some(a), Expiries(KEY));
    OccursLogged([] + [a], Some(b), Expiries(KEY));
    OccursLogged([] + [a] + [b], Some(c), Expiries(KEY));
  }
}
