/** Exactly how often a transaction can be published while the payment hub is honest: by callbacks as often as they can
    write, and once by each status check that reads the row before the first write. */
module PublishBounds {
  import opened Wrappers
  import opened PaymentDomain
  import opened PaymentTable
  import opened World
  import opened Protocol
  import opened History
  import opened RowLife
  import opened EffectivelyOnce
  import opened GatewayAgreement
  import opened FinalStatus
  import opened Scenarios
  import opened UnsettledWords
  import opened WriteBounds

  const HONESTLY: set<string> := {PENDING}

  /** The hub is honest, the callbacks keep to the terms, and at most `early` status checks read the row before its first
      write. */
  ghost predicate OnHonestTerms(labels: seq<Label>, id: string, partners: set<string>, expiries: nat, early: nat) {
    && HonestRun(labels, HONESTLY)
    && OnTerms(Run(INIT, labels), id, partners, expiries)
    && EarlyReads(Run(INIT, labels).log, id) <= early
  }

  ghost predicate AllPublishesWithin(partners: set<string>, expiries: nat, early: nat, bound: nat) {
    forall labels, id :: OnHonestTerms(labels, id, partners, expiries, early) ==>
      Occurs(Run(INIT, labels).log, Publishes(id)) <= bound
  }

  lemma NoHonestRunExceeds(labels: seq<Label>, id: string, partners: set<string>, expiries: nat, early: nat)
    requires OnHonestTerms(labels, id, partners, expiries, early)
    ensures Occurs(Run(INIT, labels).log, Publishes(id)) <= Most(partners, expiries) + early
  {
    var s := Run(INIT, labels);
    hide Run, HonestRun, NeverReset, Lapses, Occurs, EarlyReads;
    assert OnlyPartners(s.handlers, id, Listed(partners));
    PublishesBounded(labels, id, Listed(partners));
    AllowanceOfSet(s.log, id, partners);
    if partners == {} {
      NoPartnersNoLapses(s.log, id);
    }
  }

  // ---------- Plain labels are honest once the hub has settled ----------

  /** The hub has settled on `completed`, and every callback is about that transaction and says so. */
  predicate Steady(s: State) {
    && IsSettled(s.settled, ID, COMPLETED)
    && forall i :: 0 <= i < |s.handlers| ==> Truthful(s, i)
  }

  lemma PlainIsHonest(s: State, l: Label)
    requires Steady(s) && PlainLabel(l)
    ensures HonestLabel(s, l, HONESTLY)
  {
    hide ExtractTransactionId, ExtractStatusFromCallback, Hook;
    if l.Advance? && Active(s, l.who) {
      assert Truthful(s, l.who);
    }
  }

  lemma HookIsTrue(p: string)
    ensures Hook(p, COMPLETED).Id() == ID && ExtractStatusFromCallback(Hook(p, COMPLETED).payload) == COMPLETED
  {
    BodyFacts(COMPLETED);
  }

  lemma OthersStayTruthful(s: State, l: Label)
    requires Steady(s) && PlainLabel(l)
    ensures Apply(s, l).settled == s.settled
    ensures forall i :: 0 <= i < |s.handlers| ==>
              i < |Apply(s, l).handlers| && (!(l.Advance? && l.who == i) ==> Apply(s, l).handlers[i] == s.handlers[i])
    ensures |Apply(s, l).handlers| > |s.handlers| ==>
              l.Spawn? && Apply(s, l).handlers == s.handlers + [l.handler]
  {
    hide HandlerStep, IsFresh, Hook, Truthful;
  }

  lemma SteadyStep(s: State, l: Label)
    requires Steady(s) && PlainLabel(l)
    ensures Steady(Apply(s, l))
  {
    var t := Apply(s, l);
    OthersStayTruthful(s, l);
    if l.Spawn? {
      HookIsTrue(l.handler.partner);
    } else if l.Advance? && l.who < |s.handlers| {
      TruthfulStays(s, l.who, l.outcome);
    }
    hide Apply, ExtractStatusFromCallback, Handler.Id, Hook, Body;
    forall i | 0 <= i < |t.handlers|
      ensures Truthful(t, i)
    {
      assert i < |s.handlers| ==> Truthful(s, i);
    }
  }

  lemma {:induction false} PlainRunsAreHonest(s: State, labels: seq<Label>)
    requires Steady(s) && Plain(labels)
    ensures HonestFrom(s, labels, HONESTLY) && Steady(Run(s, labels))
    decreases |labels|
  {
    hide Apply, HonestLabel, Steady, PlainLabel;
    if labels != [] {
      var before, last := labels[..|labels| - 1], labels[|labels| - 1];
      PlainRunsAreHonest(s, before);
      PlainIsHonest(Run(s, before), last);
      SteadyStep(Run(s, before), last);
      HonestOne(Run(s, before), last, HONESTLY);
      HonestConcat(s, before, [last], HONESTLY);
      assert labels == before + [last];
    }
  }

  // ---------- Checks that read early and store late ----------

  /** A status check that read the row pending and has been told `completed`. */
  const WAITING: Handler := Check(ID, AwaitStore(ROW, COMPLETED))

  function Queue(k: nat): seq<Handler> {
    READY.handlers + seq(k, _ => WAITING)
  }

  lemma QueueGrows(k: nat)
    ensures Queue(k + 1) == Queue(k) + [WAITING]
  {
  }

  function Waiters(k: nat, partners: set<string>): Setting {
    Setting(Queue(k), k, partners)
  }

  /** The hub has settled, `k` checks wait to store, and nobody has written. */
  ghost predicate Asked(s: State, k: nat, partners: set<string>) {
    && s.handlers == Queue(k) && s.crashed == {} && s.shared.rows == READY.shared.rows && s.shared.locks == map[]
    && s.settled == map[ID := COMPLETED] && Tallied(s.log, 0, 0, Waiters(k, partners)) && !Written(s.log, ID)
  }

  function Ask(i: nat): seq<Label> {
    [Spawn(NewCheck(ID)), Advance(i, Ok), Advance(i, Answer(Some(COMPLETED)))]
  }

  /** The state after one more check has asked. */
  function AskedOnce(s: State): State {
    s.(handlers := s.handlers + [WAITING], log := s.log + [Did(|s.handlers|, ID, ReadForCheck(PENDING))])
  }

  lemma AskRuns(s: State)
    requires s.crashed == {} && s.shared.rows == READY.shared.rows && IsSettled(s.settled, ID, COMPLETED)
    ensures Run(s, Ask(|s.handlers|)) == AskedOnce(s)
    ensures HonestFrom(s, Ask(|s.handlers|), HONESTLY)
  {
    ReadyRow();
    hide FindById, Run, HonestFrom;
    var i := |s.handlers|;
    var s1 := s.(handlers := s.handlers + [NewCheck(ID)]);
    assert Apply(s, Spawn(NewCheck(ID))) == s1;
    var s2 := s1.(handlers := s.handlers + [Check(ID, AwaitQuery(ROW))], log := s.log + [Did(i, ID, ReadForCheck(PENDING))]);
    assert Apply(s1, Advance(i, Ok)) == s2;
    assert Apply(s2, Advance(i, Answer(Some(COMPLETED)))) == AskedOnce(s);
    assert HonestLabel(s2, Advance(i, Answer(Some(COMPLETED))), HONESTLY);
    hide Apply;
    ThreeSteps(s, Spawn(NewCheck(ID)), Advance(i, Ok), Advance(i, Answer(Some(COMPLETED))));
    ThreeHonest(s, Spawn(NewCheck(ID)), Advance(i, Ok), Advance(i, Answer(Some(COMPLETED))), HONESTLY);
    assert Ask(i) == [Spawn(NewCheck(ID))] + [Advance(i, Ok)] + [Advance(i, Answer(Some(COMPLETED)))];
  }

  lemma AskTallied(log: seq<Event>, i: nat, k: nat, partners: set<string>)
    requires Tallied(log, 0, 0, Waiters(k, partners)) && !Written(log, ID)
    ensures var more := log + [Did(i, ID, ReadForCheck(PENDING))];
            Tallied(more, 0, 0, Waiters(k + 1, partners)) && !Written(more, ID)
  {
    hide Occurs, IsKeyOf;
    var e := Did(i, ID, ReadForCheck(PENDING));
    OccursLogged(log, Some(e), CallbackWrites(ID));
    OccursLogged(log, Some(e), CallbackPublishes(ID));
    OccursLogged(log, Some(e), Publishes(ID));
    EarlyReadsLogged(log, Some(e), ID);
    LapsesLogged(log, e, partners);
    hide Lapses, EarlyReads;
  }

  lemma {:induction false} AskAll(k: nat, partners: set<string>) returns (labels: seq<Label>)
    ensures HonestFrom(INIT, labels, HONESTLY) && Asked(Run(INIT, labels), k, partners)
  {
    hide Run, HonestFrom, Tallied, Written, READY, SETUP, Queue, Ask, FindById, WellFormed;
    if k == 0 {
      SetupRuns();
      SetupIsHonest(HONESTLY);
      SettleRuns(partners);
      labels := SETUP + [Settle(ID, COMPLETED)];
      OneStep(READY, Settle(ID, COMPLETED));
      RunConcat(INIT, SETUP, [Settle(ID, COMPLETED)]);
      OthersAreHonest(READY, [Settle(ID, COMPLETED)], HONESTLY);
      HonestConcat(INIT, SETUP, [Settle(ID, COMPLETED)], HONESTLY);
    } else {
      var before := AskAll(k - 1, partners);
      var s := Run(INIT, before);
      QueueGrows(k - 1);
      AskRuns(s);
      AskTallied(s.log, |s.handlers|, k - 1, partners);
      labels := before + Ask(|s.handlers|);
      RunConcat(INIT, before, Ask(|s.handlers|));
      HonestConcat(INIT, before, Ask(|s.handlers|), HONESTLY);
    }
  }

  lemma SettleRuns(partners: set<string>)
    ensures Asked(Apply(READY, Settle(ID, COMPLETED)), 0, partners)
  {
    ReadyGathered(partners);
    assert Queue(0) == READY.handlers;
    hide Body;
    assert READY.log == [Created(0, "REF", None)];
  }

  lemma AskedIsGathered(s: State, k: nat, partners: set<string>)
    requires Asked(s, k, partners)
    ensures Gathered(s, 0, 0, Waiters(k, partners)) && Steady(s)
  {
    hide Tallied, Written;
  }

  // ---------- And store at last ----------

  /** What the callbacks leave: `m` publishes, and the checks from `j` on still waiting. */
  ghost predicate Storing(s: State, k: nat, j: nat, m: nat, lapses: nat, partners: set<string>) {
    && j <= k && |s.handlers| > k && s.crashed == {}
    && (forall i :: j < i <= k ==> s.handlers[i] == WAITING)
    && PartnersWithin(s.handlers, ID, partners) && NeverReset(s.log, ID)
    && Lapses(s.log, ID, partners) == lapses && EarlyReads(s.log, ID) == k
    && Occurs(s.log, Publishes(ID)) == m + j
  }

  lemma CrewIsStoring(s: State, k: nat, m: nat, lapses: nat, partners: set<string>)
    requires Crew(s, m, m, Waiters(k, partners)) && Tallied(s.log, m, lapses, Waiters(k, partners))
    ensures Storing(s, k, 0, m, lapses, partners)
  {
    hide ExtractTransactionId, NeverReset, Occurs, Lapses, EarlyReads;
    assert forall i :: 0 < i <= k ==> Queue(k)[i] == WAITING;
    assert forall i :: 0 <= i < |Queue(k)| ==> s.handlers[i] == Queue(k)[i];
  }

  lemma StoreSteps(s: State, i: nat)
    requires i < |s.handlers| && s.crashed == {} && s.handlers[i] == WAITING
    ensures var t := Run(s, Deliver(i));
            && t.handlers == s.handlers[i := Check(ID, AwaitCheckNotify(ROW, COMPLETED))] && t.crashed == {}
            && t.log == s.log + [Did(i, ID, WroteCheck(COMPLETED, true))] + [Did(i, ID, PublishedCheck(COMPLETED))]
  {
    hide Run, UpdateWhere, AttemptFor;
    TwoSteps(s, Advance(i, Ok), Advance(i, Ok));
    var s1 := Apply(s, Advance(i, Ok));
    assert s1.handlers == s.handlers[i := Check(ID, AwaitCheckPublish(ROW, COMPLETED))];
    assert s1.log == s.log + [Did(i, ID, WroteCheck(COMPLETED, true))];
  }

  lemma StoreTallied(log: seq<Event>, i: nat, partners: set<string>)
    ensures var more := log + [Did(i, ID, WroteCheck(COMPLETED, true))] + [Did(i, ID, PublishedCheck(COMPLETED))];
            && (NeverReset(log, ID) ==> NeverReset(more, ID))
            && Lapses(more, ID, partners) == Lapses(log, ID, partners)
            && EarlyReads(more, ID) == EarlyReads(log, ID)
            && Occurs(more, Publishes(ID)) == Occurs(log, Publishes(ID)) + 1
  {
    hide Occurs, IsKeyOf;
    var x, y := Did(i, ID, WroteCheck(COMPLETED, true)), Did(i, ID, PublishedCheck(COMPLETED));
    OccursLogged(log, Some(x), Publishes(ID));
    EarlyReadsLogged(log, Some(x), ID);
    LapsesLogged(log, x, partners);
    OccursLogged(log + [x], Some(y), Publishes(ID));
    EarlyReadsLogged(log + [x], Some(y), ID);
    LapsesLogged(log + [x], y, partners);
    hide Lapses, EarlyReads;
  }

  lemma StoreRuns(s: State, k: nat, j: nat, m: nat, lapses: nat, partners: set<string>)
    requires Storing(s, k, j, m, lapses, partners) && j < k
    ensures Storing(Run(s, Deliver(j + 1)), k, j + 1, m, lapses, partners)
  {
    hide Run, Deliver, NeverReset, Occurs, Lapses, EarlyReads, ExtractTransactionId;
    StoreSteps(s, j + 1);
    StoreTallied(s.log, j + 1, partners);
  }

  lemma {:induction false} StoreAll(s: State, k: nat, j: nat, m: nat, lapses: nat, partners: set<string>)
    returns (labels: seq<Label>)
    requires Storing(s, k, j, m, lapses, partners)
    ensures Storing(Run(s, labels), k, k, m, lapses, partners) && Plain(labels)
    decreases k - j
  {
    hide Run, Deliver, Storing, PlainLabel;
    if j >= k {
      labels := [];
      RunNothing(s);
      StoringEnds(s, k, j, m, lapses, partners);
    } else {
      StoreRuns(s, k, j, m, lapses, partners);
      var more := StoreAll(Run(s, Deliver(j + 1)), k, j + 1, m, lapses, partners);
      RunConcat(s, Deliver(j + 1), more);
      labels := Deliver(j + 1) + more;
    }
  }

  lemma StoringEnds(s: State, k: nat, j: nat, m: nat, lapses: nat, partners: set<string>)
    requires Storing(s, k, j, m, lapses, partners) && j >= k
    ensures j == k
  {
  }

  /** For every choice of partner names, expiries and early checks some honest run on those terms publishes that often. */
  lemma {:induction false} HonestMostIsReached(partners: set<string>, expiries: nat, early: nat)
    returns (labels: seq<Label>, id: string)
    ensures OnHonestTerms(labels, id, partners, expiries, early)
    ensures Occurs(Run(INIT, labels).log, Publishes(id)) == Most(partners, expiries) + early
  {
    hide Run, HonestFrom, Asked, Gathered, Steady, Crew, Tallied, Plain, NeverReset, Occurs, Lapses, EarlyReads;
    id := ID;
    var m, lapses := Most(partners, expiries), if partners == {} then 0 else expiries;
    var asking := AskAll(early, partners);
    var s := Run(INIT, asking);
    AskedIsGathered(s, early, partners);
    assert s.shared.locks == map[] by { AskedLocksNothing(s, early, partners); }
    var calls := MostFrom(s, Waiters(early, partners), expiries);
    PlainRunsAreHonest(s, calls);
    var t := Run(s, calls);
    CrewIsStoring(t, early, m, lapses, partners);
    var stores := StoreAll(t, early, 0, m, lapses, partners);
    PlainRunsAreHonest(t, stores);
    RunConcat(s, calls, stores);
    HonestConcat(s, calls, stores, HONESTLY);
    labels := asking + (calls + stores);
    RunConcat(INIT, asking, calls + stores);
    HonestConcat(INIT, asking, calls + stores, HONESTLY);
  }

  lemma AskedLocksNothing(s: State, k: nat, partners: set<string>)
    requires Asked(s, k, partners)
    ensures s.shared.locks == map[]
  {
  }

  /** In every run with an honest hub, on the callbacks' terms and with at most `early` checks that read before the first
      write, a transaction is published at most `bound` times if and only if `bound` is at least one per partner name,
      one per expiry and one per early check. */
  lemma ExactPublishBound(partners: set<string>, expiries: nat, early: nat, bound: nat)
    ensures AllPublishesWithin(partners, expiries, early, bound) <==> Most(partners, expiries) + early <= bound
  {
    hide Run, OnHonestTerms, Occurs, Most;
    if Most(partners, expiries) + early <= bound {
      forall labels, id | OnHonestTerms(labels, id, partners, expiries, early)
        ensures Occurs(Run(INIT, labels).log, Publishes(id)) <= bound
      {
        NoHonestRunExceeds(labels, id, partners, expiries, early);
      }
    } else {
      var labels, id := HonestMostIsReached(partners, expiries, early);
      assert OnHonestTerms(labels, id, partners, expiries, early);
    }
  }
}
