/** Exactly how often callbacks can write a transaction: for given partner names and a given number of lock expiries, the
    least bound that holds in every run. */
module WriteBounds {
  import opened Wrappers
  import opened PaymentDomain
  import opened PaymentTable
  import opened World
  import opened Protocol
  import opened History
  import opened RowLife
  import opened EffectivelyOnce
  import opened FinalStatus
  import opened SoleRuns
  import opened Scenarios
  import opened Hypotheses

  // ---------- What is bounded ----------

  ghost predicate IsKeyOf(key: string, id: string, partners: set<string>) {
    exists p :: p in partners && key == BuildCallbackLockKey(p, id)
  }

  /** How often keys of these partners for this transaction have expired. */
  ghost function Lapses(log: seq<Event>, id: string, partners: set<string>): nat
    decreases |log|
  {
    if log == [] then 0
    else
      var e := log[|log| - 1];
      Lapses(log[..|log| - 1], id, partners) + if e.Expired? && IsKeyOf(e.key, id, partners) then 1 else 0
  }

  predicate PartnersWithin(hs: seq<Handler>, id: string, partners: set<string>) {
    forall i :: 0 <= i < |hs| && hs[i].Callback? && hs[i].Id() == id ==> hs[i].partner in partners
  }

  /** The callbacks for `id` use these partner names, whose keys expire at most this often, and nothing resets the row. */
  ghost predicate OnTerms(s: State, id: string, partners: set<string>, expiries: nat) {
    NeverReset(s.log, id) && PartnersWithin(s.handlers, id, partners) && Lapses(s.log, id, partners) <= expiries
  }

  ghost predicate WritesWithin(partners: set<string>, expiries: nat, bound: nat) {
    forall labels, id :: OnTerms(Run(INIT, labels), id, partners, expiries) ==>
      Occurs(Run(INIT, labels).log, CallbackWrites(id)) <= bound
  }

  ghost predicate PublishesWithin(partners: set<string>, expiries: nat, bound: nat) {
    forall labels, id :: OnTerms(Run(INIT, labels), id, partners, expiries) ==>
      Occurs(Run(INIT, labels).log, CallbackPublishes(id)) <= bound
  }

  /** One per partner name and one more per expiry. */
  function Most(partners: set<string>, expiries: nat): nat {
    if partners == {} then 0 else |partners| + expiries
  }

  // ---------- No run exceeds it ----------

  ghost function Listed(partners: set<string>): (list: seq<string>)
    ensures forall p :: p in list <==> p in partners
    decreases |partners|
  {
    if partners == {} then []
    else
      var p :| p in partners;
      [p] + Listed(partners - {p})
  }

  lemma {:induction false} LapsesSplit(log: seq<Event>, id: string, p: string, rest: set<string>)
    requires p !in rest
    ensures Lapses(log, id, {p} + rest) == Occurs(log, Expiries(BuildCallbackLockKey(p, id))) + Lapses(log, id, rest)
    decreases |log|
  {
    hide BuildCallbackLockKey;
    if log != [] {
      LapsesSplit(log[..|log| - 1], id, p, rest);
      var e := log[|log| - 1];
      if e.Expired? && e.key == BuildCallbackLockKey(p, id) {
        assert p in {p} + rest;
        if IsKeyOf(e.key, id, rest) {
          var q :| q in rest && e.key == BuildCallbackLockKey(q, id);
          PartnersSeparateKeys(p, q, id);
        }
      } else if e.Expired? && IsKeyOf(e.key, id, rest) {
        var q :| q in rest && e.key == BuildCallbackLockKey(q, id);
        assert q in {p} + rest;
      }
    }
  }

  lemma {:induction false} NoPartnersNoLapses(log: seq<Event>, id: string)
    ensures Lapses(log, id, {}) == 0
    decreases |log|
  {
    if log != [] {
      NoPartnersNoLapses(log[..|log| - 1], id);
    }
  }

  lemma {:induction false} AllowanceOfSet(log: seq<Event>, id: string, partners: set<string>)
    ensures Allowance(log, id, Listed(partners)) == |partners| + Lapses(log, id, partners)
    decreases |partners|
  {
    hide BuildCallbackLockKey, Lapses, Occurs;
    if partners == {} {
      NoPartnersNoLapses(log, id);
    } else {
      var list := Listed(partners);
      var p := list[0];
      assert p in list && list[1..] == Listed(partners - {p});
      AllowanceOfSet(log, id, partners - {p});
      LapsesSplit(log, id, p, partners - {p});
      assert {p} + (partners - {p}) == partners;
    }
  }

  lemma NeverMoreThanMost(labels: seq<Label>, id: string, partners: set<string>, expiries: nat)
    requires OnTerms(Run(INIT, labels), id, partners, expiries)
    ensures Occurs(Run(INIT, labels).log, CallbackWrites(id)) <= Most(partners, expiries)
    ensures Occurs(Run(INIT, labels).log, CallbackPublishes(id)) <= Occurs(Run(INIT, labels).log, CallbackWrites(id))
  {
    var s := Run(INIT, labels);
    hide Run, Weight, Lapses, Occurs;
    assert OnlyPartners(s.handlers, id, Listed(partners));
    CallbacksWriteWithinAllowance(labels, id, Listed(partners));
    AllowanceOfSet(s.log, id, partners);
    if partners == {} {
      NoPartnersNoLapses(s.log, id);
    }
    LogCountsAreTallies(labels, CallbackWrites(id));
    LogCountsAreTallies(labels, CallbackPublishes(id));
    PublishersHaveWritten(s.handlers, id);
  }

  lemma PublishersHaveWritten(hs: seq<Handler>, id: string)
    ensures Tally(hs, CallbackPublishes(id)) <= Tally(hs, CallbackWrites(id))
  {
    hide ExtractTransactionId, BuildCallbackLockKey, Tally;
    TallyBound(hs, CallbackPublishes(id), CallbackWrites(id));
  }

  // ---------- Some run reaches it ----------

  /** The callback has read the row unprocessed, passed the signature check, and stands before its write. */
  predicate BeforeWrite(h: Handler, partners: set<string>) {
    Ours(h, partners) && h.cpc.AwaitUpdate?
  }

  predicate Ours(h: Handler, partners: set<string>) {
    h.Callback? && h.Id() == ID && h.partner in partners
  }

  /** What stays as it is while the callbacks come in: the handlers before them, the early reads so far, and the partner
      names they use. */
  datatype Setting = Setting(lead: seq<Handler>, early: nat, partners: set<string>)

  /** The handlers: the leading ones, then `m` callbacks, of which the first `w` have written and published. */
  predicate Crew(s: State, m: nat, w: nat, c: Setting) {
    && w <= m && |s.handlers| == |c.lead| + m && c.lead <= s.handlers && s.crashed == {}
    && (forall i :: 0 <= i < |c.lead| ==> !c.lead[i].Callback?)
    && (forall i :: |c.lead| <= i < |s.handlers| ==> Ours(s.handlers[i], c.partners))
    && (forall i :: |c.lead| + w <= i < |s.handlers| ==> BeforeWrite(s.handlers[i], c.partners))
  }

  ghost predicate Tallied(log: seq<Event>, w: nat, lapses: nat, c: Setting) {
    && NeverReset(log, ID)
    && Occurs(log, CallbackWrites(ID)) == w && Occurs(log, CallbackPublishes(ID)) == w && Occurs(log, Publishes(ID)) == w
    && Lapses(log, ID, c.partners) == lapses && EarlyReads(log, ID) == c.early
  }

  /** All `m` callbacks stand before their write, and the row is as it was created. */
  ghost predicate Gathered(s: State, m: nat, lapses: nat, c: Setting) {
    Crew(s, m, 0, c) && Tallied(s.log, 0, lapses, c) && s.shared.rows == READY.shared.rows
  }

  /** The labels used: webhooks reporting `completed`, steps that succeed, and time. */
  predicate PlainLabel(l: Label) {
    match l
    case Spawn(h) => h.Callback? && h == Hook(h.partner, COMPLETED)
    case Advance(_, o) => o.Ok?
    case Tick => true
    case Expire(_) => true
    case _ => false
  }

  predicate Plain(labels: seq<Label>) {
    forall k :: 0 <= k < |labels| ==> PlainLabel(labels[k])
  }

  /** An event that counts for nothing. */
  predicate Quiet(e: Event) {
    e.Did? && (e.act.Acquired? || e.act.ReadUnprocessed? || e.act.Validated?)
  }

  lemma OneMoreEvent(log: seq<Event>, e: Event, w: nat, lapses: nat, c: Setting)
    requires Tallied(log, w, lapses, c)
    ensures Quiet(e) ==> Tallied(log + [e], w, lapses, c)
    ensures e.Expired? && IsKeyOf(e.key, ID, c.partners) ==> Tallied(log + [e], w, lapses + 1, c)
  {
    hide IsKeyOf, Occurs;
    OccursLogged(log, Some(e), CallbackWrites(ID));
    OccursLogged(log, Some(e), CallbackPublishes(ID));
    OccursLogged(log, Some(e), Publishes(ID));
    EarlyReadsLogged(log, Some(e), ID);
    LapsesLogged(log, e, c.partners);
    hide Lapses, EarlyReads;
  }

  lemma HookFacts(p: string)
    ensures IsFresh(Hook(p, COMPLETED)) && Hook(p, COMPLETED).Id() == ID
    ensures Hook(p, COMPLETED).Key() == BuildCallbackLockKey(p, ID)
  {
    BodyFacts(COMPLETED);
  }

  function Arrive(i: nat, p: string): (labels: seq<Label>)
    ensures Plain(labels)
  {
    [Spawn(Hook(p, COMPLETED))] + Enter(i)
  }

  /** The state after one more callback has come in. */
  function Arrived(s: State, p: string): State {
    Entered(s.(handlers := s.handlers + [Hook(p, COMPLETED)]), |s.handlers|, p, COMPLETED, ROW)
  }

  lemma SpawnState(s: State, p: string)
    ensures Apply(s, Spawn(Hook(p, COMPLETED))) == s.(handlers := s.handlers + [Hook(p, COMPLETED)])
  {
    HookFacts(p);
    hide IsFresh, Body;
  }

  lemma ReadyRow()
    ensures FindById(READY.shared.rows, ID) == Some(ROW) && !ROW.processed
  {
    SetupRuns();
  }

  lemma ArrivalState(s: State, p: string)
    requires s.crashed == {} && s.shared.rows == READY.shared.rows && BuildCallbackLockKey(p, ID) !in s.shared.locks
    ensures Run(s, Arrive(|s.handlers|, p)) == Arrived(s, p)
  {
    ReadyRow();
    HookFacts(p);
    SpawnState(s, p);
    hide Run, Apply, Hook, BuildCallbackLockKey, FindById, Enter, IsFresh, Handler.Key, Handler.Id, READY, ROW, Entered;
    RunCons(s, Spawn(Hook(p, COMPLETED)), Enter(|s.handlers|));
    EnterRuns(s.(handlers := s.handlers + [Hook(p, COMPLETED)]), |s.handlers|, p, COMPLETED, ROW);
  }

  lemma CrewGrows(s: State, t: State, m: nat, c: Setting, h: Handler)
    requires Crew(s, m, 0, c) && BeforeWrite(h, c.partners)
    requires t.handlers == s.handlers + [h] && t.crashed == s.crashed
    ensures Crew(t, m + 1, 0, c)
  {
    assert Ours(h, c.partners);
    hide BeforeWrite, Ours;
  }

  /** The callback that has come in. */
  function Newcomer(p: string, since: nat): Handler {
    Callback(p, Body(COMPLETED), since, AwaitUpdate(ROW, COMPLETED))
  }

  lemma NewcomerWaits(p: string, since: nat, partners: set<string>)
    requires p in partners
    ensures BeforeWrite(Newcomer(p, since), partners)
  {
    BodyFacts(COMPLETED);
    hide Body;
  }

  lemma ArrivedFacts(s: State, p: string)
    ensures var t, i := Arrived(s, p), |s.handlers|;
            && t.handlers == s.handlers + [Newcomer(p, s.shared.now)] && t.crashed == s.crashed
            && t.shared.locks == s.shared.locks[BuildCallbackLockKey(p, ID) := Lock(i, s.shared.now + TTL)]
            && t.shared.rows == s.shared.rows && t.shared.now == s.shared.now
            && t.log == s.log + [Did(i, ID, Acquired), Did(i, ID, ReadUnprocessed), Did(i, ID, Validated)]
  {
    HookFacts(p);
    hide Body, BuildCallbackLockKey, ExtractTransactionId, IsFresh, Handler.Key;
    var h := Newcomer(p, s.shared.now);
    assert (s.handlers + [Hook(p, COMPLETED)])[|s.handlers| := h] == s.handlers + [h];
  }

  lemma ArriveRuns(s: State, m: nat, lapses: nat, c: Setting, p: string)
    requires Gathered(s, m, lapses, c) && p in c.partners && BuildCallbackLockKey(p, ID) !in s.shared.locks
    ensures var i := |c.lead| + m;
            var t := Run(s, Arrive(i, p));
            && Gathered(t, m + 1, lapses, c)
            && t.shared.locks == s.shared.locks[BuildCallbackLockKey(p, ID) := Lock(i, s.shared.now + TTL)]
            && t.shared.now == s.shared.now
  {
    hide Run, BuildCallbackLockKey, Arrive, Arrived, Newcomer, Tallied, BeforeWrite, Ours, READY;
    ArrivalState(s, p);
    ArrivedFacts(s, p);
    EntryTallied(s.log, |s.handlers|, lapses, c);
    NewcomerWaits(p, s.shared.now, c.partners);
    CrewGrows(s, Arrived(s, p), m, c, Newcomer(p, s.shared.now));
  }

  lemma EntryTallied(log: seq<Event>, i: nat, lapses: nat, c: Setting)
    requires Tallied(log, 0, lapses, c)
    ensures Tallied(log + [Did(i, ID, Acquired), Did(i, ID, ReadUnprocessed), Did(i, ID, Validated)], 0, lapses, c)
  {
    hide Tallied;
    var x, y, z := Did(i, ID, Acquired), Did(i, ID, ReadUnprocessed), Did(i, ID, Validated);
    OneMoreEvent(log, x, 0, lapses, c);
    OneMoreEvent(log + [x], y, 0, lapses, c);
    OneMoreEvent(log + [x] + [y], z, 0, lapses, c);
    assert log + [x] + [y] + [z] == log + [x, y, z];
  }

  function Lapse(p: string): (labels: seq<Label>)
    ensures Plain(labels)
  {
    Ticks(TTL) + [Expire(BuildCallbackLockKey(p, ID))]
  }

  lemma LapseState(s: State, p: string, owner: nat)
    requires s.shared.locks == map[BuildCallbackLockKey(p, ID) := Lock(owner, s.shared.now + TTL)]
    ensures var key := BuildCallbackLockKey(p, ID);
            Run(s, Lapse(p)) ==
            s.(shared := s.shared.(now := s.shared.now + TTL, locks := map[]), log := s.log + [Expired(key)])
  {
    var key := BuildCallbackLockKey(p, ID);
    hide Run, BuildCallbackLockKey, Ticks, FindById;
    RunConcat(s, Ticks(TTL), [Expire(key)]);
    TicksRun(s, TTL);
    OneStep(s.(shared := s.shared.(now := s.shared.now + TTL)), Expire(key));
    assert s.shared.locks - {key} == map[];
  }

  lemma LapseRuns(s: State, m: nat, lapses: nat, c: Setting, p: string, owner: nat)
    requires Gathered(s, m, lapses, c) && p in c.partners
    requires s.shared.locks == map[BuildCallbackLockKey(p, ID) := Lock(owner, s.shared.now + TTL)]
    ensures var t := Run(s, Lapse(p)); Gathered(t, m, lapses + 1, c) && t.shared.locks == map[]
  {
    LapseState(s, p, owner);
    assert IsKeyOf(BuildCallbackLockKey(p, ID), ID, c.partners);
    hide Run, BuildCallbackLockKey, Lapse, Tallied, IsKeyOf, BeforeWrite, Ours;
    OneMoreEvent(s.log, Expired(BuildCallbackLockKey(p, ID)), 0, lapses, c);
  }

  /** `n` callbacks of one partner, each of which outstays its lock. */
  lemma {:induction false} GatherLate(s: State, c: Setting, p: string, n: nat) returns (labels: seq<Label>)
    requires Gathered(s, 0, 0, c) && s.shared.locks == map[] && p in c.partners
    ensures Gathered(Run(s, labels), n, n, c) && Run(s, labels).shared.locks == map[] && Plain(labels)
  {
    hide Run, Gathered, BuildCallbackLockKey, Arrive, Lapse, PlainLabel;
    labels := [];
    if n == 0 {
      RunNothing(s);
    } else {
      var i := |c.lead| + (n - 1);
      var before := GatherLate(s, c, p, n - 1);
      ArriveRuns(Run(s, before), n - 1, n - 1, c, p);
      RunConcat(s, before, Arrive(i, p));
      LapseRuns(Run(s, before + Arrive(i, p)), n, n - 1, c, p, i);
      RunConcat(s, before + Arrive(i, p), Lapse(p));
      labels := before + Arrive(i, p) + Lapse(p);
    }
  }

  lemma RunNothing(s: State)
    ensures Run(s, []) == s
  {
  }

  lemma ReadyGathered(partners: set<string>)
    ensures Gathered(READY, 0, 0, Setting(READY.handlers, 0, partners))
  {
    assert READY.log[..0] == [];
  }

  /** Then one more callback of each partner, side by side. */
  lemma {:induction false} GatherAll(s: State, m: nat, lapses: nat, c: Setting, rest: set<string>)
    returns (labels: seq<Label>)
    requires Gathered(s, m, lapses, c) && rest <= c.partners
    requires forall p :: p in rest ==> BuildCallbackLockKey(p, ID) !in s.shared.locks
    ensures Gathered(Run(s, labels), m + |rest|, lapses, c) && Plain(labels)
    decreases |rest|
  {
    hide Gathered, BuildCallbackLockKey, Arrive, PlainLabel;
    if rest == {} {
      labels := [];
    } else {
      var p :| p in rest;
      var first := Arrive(|c.lead| + m, p);
      ArriveRuns(s, m, lapses, c, p);
      forall q | q in rest - {p}
        ensures BuildCallbackLockKey(q, ID) !in Run(s, first).shared.locks
      {
        PartnersSeparateKeys(p, q, ID);
      }
      var more := GatherAll(Run(s, first), m + 1, lapses, c, rest - {p});
      RunConcat(s, first, more);
      labels := first + more;
    }
  }

  function Deliver(i: nat): (labels: seq<Label>)
    ensures Plain(labels)
  {
    [Advance(i, Ok), Advance(i, Ok)]
  }

  lemma DeliverySteps(s: State, i: nat)
    requires i < |s.handlers| && s.crashed == {} && s.handlers[i].Callback? && s.handlers[i].Id() == ID
    requires s.handlers[i].cpc.AwaitUpdate?
    ensures var t, h := Run(s, Deliver(i)), s.handlers[i];
            var status := h.cpc.status;
            && t.handlers == s.handlers[i := h.(cpc := AwaitNotify(h.cpc.row, status))] && t.crashed == {}
            && t.log == s.log + [Did(i, ID, WroteCallback(status, true))] + [Did(i, ID, PublishedCallback(status))]
  {
    var h := s.handlers[i];
    hide Run, UpdateWhere, AttemptFor, BuildCallbackLockKey, ExtractTransactionId;
    TwoSteps(s, Advance(i, Ok), Advance(i, Ok));
    var s1 := Apply(s, Advance(i, Ok));
    assert s1.handlers == s.handlers[i := h.(cpc := AwaitPublish(h.cpc.row, h.cpc.status))];
    assert s1.log == s.log + [Did(i, ID, WroteCallback(h.cpc.status, true))];
  }

  /** The next callback writes and publishes. */
  lemma DeliverRuns(s: State, m: nat, w: nat, lapses: nat, c: Setting)
    requires Crew(s, m, w, c) && Tallied(s.log, w, lapses, c) && w < m
    ensures var t := Run(s, Deliver(|c.lead| + w));
            Crew(t, m, w + 1, c) && Tallied(t.log, w + 1, lapses, c)
  {
    var i, h := |c.lead| + w, s.handlers[|c.lead| + w];
    assert BeforeWrite(h, c.partners);
    hide Run, Tallied, Deliver, Crew, Handler.Id;
    DeliverySteps(s, i);
    DeliveryTallied(s.log, i, h.cpc.status, w, lapses, c);
    CrewDelivers(s, Run(s, Deliver(i)), m, w, c, h.(cpc := AwaitNotify(h.cpc.row, h.cpc.status)));
  }

  lemma CrewDelivers(s: State, t: State, m: nat, w: nat, c: Setting, h: Handler)
    requires Crew(s, m, w, c) && w < m && Ours(h, c.partners)
    requires t.handlers == s.handlers[|c.lead| + w := h] && t.crashed == s.crashed
    ensures Crew(t, m, w + 1, c)
  {
    hide Ours, BeforeWrite;
    assert t.handlers[..|c.lead|] == s.handlers[..|c.lead|];
  }

  lemma DeliveryTallied(log: seq<Event>, i: nat, status: string, w: nat, lapses: nat, c: Setting)
    requires Tallied(log, w, lapses, c)
    ensures Tallied(log + [Did(i, ID, WroteCallback(status, true))] + [Did(i, ID, PublishedCallback(status))],
                    w + 1, lapses, c)
  {
    hide Occurs, IsKeyOf;
    var x, y := Did(i, ID, WroteCallback(status, true)), Did(i, ID, PublishedCallback(status));
    OccursLogged(log, Some(x), CallbackWrites(ID));
    OccursLogged(log, Some(x), CallbackPublishes(ID));
    OccursLogged(log, Some(x), Publishes(ID));
    EarlyReadsLogged(log, Some(x), ID);
    OccursLogged(log + [x], Some(y), CallbackWrites(ID));
    OccursLogged(log + [x], Some(y), CallbackPublishes(ID));
    OccursLogged(log + [x], Some(y), Publishes(ID));
    EarlyReadsLogged(log + [x], Some(y), ID);
    LapsesLogged(log, x, c.partners);
    LapsesLogged(log + [x], y, c.partners);
    hide Lapses, EarlyReads;
  }

  lemma LapsesLogged(log: seq<Event>, e: Event, partners: set<string>)
    ensures Lapses(log + [e], ID, partners) ==
            Lapses(log, ID, partners) + if e.Expired? && IsKeyOf(e.key, ID, partners) then 1 else 0
  {
    hide IsKeyOf;
    assert (log + [e])[..|log|] == log;
  }

  lemma {:induction false} DeliverAll(s: State, m: nat, w: nat, lapses: nat, c: Setting)
    returns (labels: seq<Label>)
    requires Crew(s, m, w, c) && Tallied(s.log, w, lapses, c)
    ensures Crew(Run(s, labels), m, m, c) && Tallied(Run(s, labels).log, m, lapses, c) && Plain(labels)
    decreases m - w
  {
    hide Tallied, Ours, BeforeWrite, Deliver, PlainLabel;
    if w == m {
      labels := [];
    } else {
      var next := Deliver(|c.lead| + w);
      DeliverRuns(s, m, w, lapses, c);
      var more := DeliverAll(Run(s, next), m, w + 1, lapses, c);
      RunConcat(s, next, more);
      labels := next + more;
    }
  }

  /** From any state with the row as created and no lock set: callbacks that write and publish as often as they can. */
  lemma {:induction false} MostFrom(s: State, c: Setting, expiries: nat) returns (labels: seq<Label>)
    requires Gathered(s, 0, 0, c) && s.shared.locks == map[]
    ensures var t, m := Run(s, labels), Most(c.partners, expiries);
            Crew(t, m, m, c) && Tallied(t.log, m, if c.partners == {} then 0 else expiries, c)
    ensures Plain(labels)
  {
    hide Run, Tallied, PlainLabel, BuildCallbackLockKey;
    if c.partners == {} {
      labels := [];
      RunNothing(s);
    } else {
      var p :| p in c.partners;
      var late := GatherLate(s, c, p, expiries);
      var all := GatherAll(Run(s, late), expiries, expiries, c, c.partners);
      RunConcat(s, late, all);
      var deliveries := DeliverAll(Run(s, late + all), expiries + |c.partners|, 0, expiries, c);
      RunConcat(s, late + all, deliveries);
      labels := late + all + deliveries;
    }
  }

  /** For every choice of partner names and expiries some run on those terms writes, and publishes, that often. */
  lemma {:induction false} MostIsReached(partners: set<string>, expiries: nat) returns (labels: seq<Label>, id: string)
    ensures OnTerms(Run(INIT, labels), id, partners, expiries)
    ensures Occurs(Run(INIT, labels).log, CallbackWrites(id)) == Most(partners, expiries)
    ensures Occurs(Run(INIT, labels).log, CallbackPublishes(id)) == Most(partners, expiries)
  {
    id := ID;
    SetupRuns();
    ReadyGathered(partners);
    hide Run, NeverReset, Occurs, Lapses, EarlyReads, FindById, WellFormed;
    var more := MostFrom(READY, Setting(READY.handlers, 0, partners), expiries);
    labels := SETUP + more;
    RunConcat(INIT, SETUP, more);
  }

  // ---------- The exact bound ----------

  /** In every run whose callbacks for a transaction use these partner names, whose keys expire at most this often and
      that does not reset the row, callbacks write at most `bound` times - and publish at most `bound` times - if and
      only if `bound` is at least one per partner name plus one per expiry. */
  lemma ExactBound(partners: set<string>, expiries: nat, bound: nat)
    ensures WritesWithin(partners, expiries, bound) <==> Most(partners, expiries) <= bound
    ensures PublishesWithin(partners, expiries, bound) <==> Most(partners, expiries) <= bound
  {
    hide Run, OnTerms, Occurs, Most;
    if Most(partners, expiries) <= bound {
      forall labels, id | OnTerms(Run(INIT, labels), id, partners, expiries)
        ensures Occurs(Run(INIT, labels).log, CallbackWrites(id)) <= bound
        ensures Occurs(Run(INIT, labels).log, CallbackPublishes(id)) <= bound
      {
        NeverMoreThanMost(labels, id, partners, expiries);
      }
    } else {
      var labels, id := MostIsReached(partners, expiries);
      assert OnTerms(Run(INIT, labels), id, partners, expiries);
    }
  }

  /** A callback is effectively once exactly for one partner name without expiry, or for none at all. */
  lemma EffectivelyOnceIff(partners: set<string>, expiries: nat)
    ensures WritesWithin(partners, expiries, 1) <==> partners == {} || (|partners| == 1 && expiries == 0)
    ensures PublishesWithin(partners, expiries, 1) <==> partners == {} || (|partners| == 1 && expiries == 0)
  {
    hide WritesWithin, PublishesWithin;
    ExactBound(partners, expiries, 1);
  }
}
