/** Concrete runs that show the hypotheses of the main results are needed and the bounds are reached. */
module Scenarios {
  import opened Wrappers
  import opened PaymentDomain
  import opened PaymentTable
  import opened World
  import opened Protocol
  import opened History
  import opened RowLife
  import opened SoleRuns
  import opened EffectivelyOnce

  const REQUEST := Request(100.0, "KES", "customer", "REF", "254700", "BRITAM", MPESA)
  const ID := "TXN"

  /** The row as created and bound to its transaction. */
  const ROW: Row := NewRow(REQUEST, MPESA).(transactionId := Some(ID))

  /** A webhook body for the transaction, reporting `word`. */
  function Body(word: string): WebhookPayload {
    WebhookPayload(Some(ID), None, None, Text(word), Undefined, Undefined, None, Undefined, Undefined, Undefined, Undefined)
  }

  lemma BodyFacts(word: string)
    requires IsThreeWord(word)
    ensures ExtractTransactionId(Body(word)) == Some(ID)
    ensures ExtractStatusFromCallback(Body(word)) == word
  {
    assert PENDING != COMPLETED && PENDING != FAILED;
    FinalWords(Body(word));
  }

  // ---------- Building blocks ----------

  lemma OneStep(s: State, l: Label)
    ensures Run(s, [l]) == Apply(s, l)
  {
    hide Apply;
    RunCons(s, l, []);
  }

  /** An initiation from start to end, then its transaction id. */
  const SETUP: seq<Label> :=
    [Spawn(NewInitiate(REQUEST, MPESA)), Advance(0, Ok), Advance(0, Ok), Advance(0, Ok), BindId("REF", ID)]

  const READY_SHARED: Shared :=
    Shared(map["REF" := ROW], map[], 0, [], [], ["REF"], Metrics(1, 0, 0, 0, 0))

  const READY: State :=
    State(READY_SHARED, [Initiate(REQUEST, MPESA, InitiateDone(Accepted))], {}, map[], [Created(0, "REF", None)])

  lemma OnlyRow(t: Table, r: string, id: string)
    requires t.Keys == {r} && t[r].reference == r && HasId(t[r], id)
    ensures WellFormed(t) && FindById(t, id) == Some(t[r])
  {
    FindByIdUnique(t, r, id);
  }

  lemma SetupRuns()
    ensures Run(INIT, SETUP) == READY
    ensures WellFormed(READY.shared.rows) && FindById(READY.shared.rows, ID) == Some(ROW)
  {
    OnlyRow(READY.shared.rows, "REF", ID);
    var h := NewInitiate(REQUEST, MPESA);
    var s1 := INIT.(shared := INIT.shared.(metrics := Metrics(1, 0, 0, 0, 0)), handlers := [h]);
    assert Apply(INIT, SETUP[0]) == s1;
    var s2 := s1.(handlers := [h.(ipc := AwaitCreate)]);
    assert Apply(s1, SETUP[1]) == s2;
    var created := NewRow(REQUEST, MPESA);
    var s3 := s2.(shared := s2.shared.(rows := map["REF" := created]), handlers := [h.(ipc := AwaitEnqueue)],
                  log := [Created(0, "REF", None)]);
    assert Apply(s2, SETUP[2]) == s3;
    var s4 := s3.(shared := s3.shared.(jobs := ["REF"]), handlers := [h.(ipc := InitiateDone(Accepted))]);
    assert Apply(s3, SETUP[3]) == s4;
    assert Apply(s4, SETUP[4]) == READY;
    FiveSteps(INIT, SETUP);
  }

  lemma FiveSteps(s: State, ls: seq<Label>)
    requires |ls| == 5
    ensures Run(s, ls) == Apply(Apply(Apply(Apply(Apply(s, ls[0]), ls[1]), ls[2]), ls[3]), ls[4])
  {
    hide Apply;
    assert ls == [ls[0]] + ([ls[1]] + ([ls[2]] + ([ls[3]] + [ls[4]])));
    RunCons(s, ls[0], [ls[1]] + ([ls[2]] + ([ls[3]] + [ls[4]])));
    var s1 := Apply(s, ls[0]);
    RunCons(s1, ls[1], [ls[2]] + ([ls[3]] + [ls[4]]));
    var s2 := Apply(s1, ls[1]);
    RunCons(s2, ls[2], [ls[3]] + [ls[4]]);
    var s3 := Apply(s2, ls[2]);
    RunCons(s3, ls[3], [ls[4]]);
    OneStep(Apply(s3, ls[3]), ls[4]);
  }

  lemma TwoSteps(s: State, a: Label, b: Label)
    ensures Run(s, [a, b]) == Apply(Apply(s, a), b)
  {
    hide Apply;
    assert [a, b] == [a] + [b];
    RunCons(s, a, [b]);
    OneStep(Apply(s, a), b);
  }

  lemma ThreeSteps(s: State, a: Label, b: Label, c: Label)
    ensures Run(s, [a, b, c]) == Apply(Apply(Apply(s, a), b), c)
  {
    hide Apply;
    assert [a, b, c] == [a] + [b, c];
    RunCons(s, a, [b, c]);
    TwoSteps(Apply(s, a), b, c);
  }

  /** A fresh callback for the transaction, reporting `word`. */
  function Hook(partner: string, word: string): Handler {
    NewCallback(partner, Body(word))
  }

  function Enter(i: nat): seq<Label> {
    [Advance(i, Ok), Advance(i, Ok), Advance(i, Ok)]
  }

  /** The state after callback `i` has taken its lock, read the row and passed the signature check. */
  function Entered(s: State, i: nat, partner: string, word: string, row: Row): State
    requires i < |s.handlers|
  {
    s.(shared := s.shared.(locks := s.shared.locks[Hook(partner, word).Key() := Lock(i, s.shared.now + TTL)],
                           metrics := s.shared.metrics.(received := s.shared.metrics.received + 1)),
       handlers := s.handlers[i := Callback(partner, Body(word), s.shared.now, AwaitUpdate(row, word))],
       log := s.log + [Did(i, ID, Acquired), Did(i, ID, ReadUnprocessed), Did(i, ID, Validated)])
  }

  /** Three steps of one handler, each leaving an event. */
  lemma ThreeAdvances(s: State, i: nat, a: Stepped, b: Stepped, c: Stepped)
    requires Active(s, i) && !a.handler.Done() && !b.handler.Done()
    requires a == HandlerStep(s.shared, i, s.handlers[i], Ok)
    requires b == HandlerStep(a.shared, i, a.handler, Ok)
    requires c == HandlerStep(b.shared, i, b.handler, Ok)
    requires a.event.Some? && b.event.Some? && c.event.Some?
    ensures Run(s, [Advance(i, Ok), Advance(i, Ok), Advance(i, Ok)]) ==
            s.(shared := c.shared, handlers := s.handlers[i := c.handler],
               log := s.log + [a.event.value, b.event.value, c.event.value])
  {
    hide HandlerStep, Handler.Done;
    ThreeSteps(s, Advance(i, Ok), Advance(i, Ok), Advance(i, Ok));
    var s2 := Apply(Apply(s, Advance(i, Ok)), Advance(i, Ok));
    assert s2.handlers == s.handlers[i := b.handler];
    assert s2.log == s.log + [a.event.value, b.event.value];
    assert s2.log + [c.event.value] == s.log + [a.event.value, b.event.value, c.event.value];
  }

  lemma EnterRuns(s: State, i: nat, partner: string, word: string, row: Row)
    requires i < |s.handlers| && i !in s.crashed && s.handlers[i] == Hook(partner, word) && IsThreeWord(word)
    requires Hook(partner, word).Key() !in s.shared.locks
    requires FindById(s.shared.rows, ID) == Some(row) && !row.processed
    ensures Run(s, Enter(i)) == Entered(s, i, partner, word, row)
  {
    BodyFacts(word);
    hide BuildCallbackLockKey, FindById, ExtractTransactionId, ExtractStatusFromCallback, IsThreeWord, Body, Run;
    var h, m := Hook(partner, word), s.shared.metrics;
    var taken := h.(since := s.shared.now, cpc := AwaitRead);
    var locked := s.shared.(locks := s.shared.locks[h.Key() := Lock(i, s.shared.now + TTL)]);
    var counted := locked.(metrics := m.(received := m.received + 1));
    ThreeAdvances(s, i,
      Stepped(locked, taken, Some(Did(i, ID, Acquired))),
      Stepped(counted, taken.(cpc := AwaitConfig(row)), Some(Did(i, ID, ReadUnprocessed))),
      Stepped(counted, taken.(cpc := AwaitUpdate(row, word)), Some(Did(i, ID, Validated))));
  }

  /** The state after callback `i` has written the row. */
  function Wrote(s: State, i: nat, partner: string, word: string, row: Row): State
    requires i < |s.handlers|
  {
    s.(shared := s.shared.(rows := UpdateWhere(s.shared.rows, ID, CallbackPatch(word))),
       handlers := s.handlers[i := Callback(partner, Body(word), s.shared.now, AwaitPublish(row, word))],
       log := s.log + [Did(i, ID, WroteCallback(word, true))])
  }

  lemma WriteRuns(s: State, i: nat, partner: string, word: string, row: Row)
    requires i < |s.handlers| && i !in s.crashed && IsThreeWord(word)
    requires s.handlers[i] == Callback(partner, Body(word), s.shared.now, AwaitUpdate(row, word))
    ensures Run(s, [Advance(i, Ok)]) == Wrote(s, i, partner, word, row)
  {
    BodyFacts(word);
    hide BuildCallbackLockKey, ExtractTransactionId, UpdateWhere, IsThreeWord, Body;
    OneStep(s, Advance(i, Ok));
  }

  // ---------- Two partners ----------

  const BRITAM := "BRITAM"

  function TwoPartners(p: string, q: string, v: string, w: string): seq<Label> {
    SETUP + ([Spawn(Hook(p, v)), Spawn(Hook(q, w))] +
             ((Enter(1) + Enter(2)) + ([Advance(1, Ok)] + [Advance(2, Ok)])))
  }

  lemma TwoSpawns(s: State, h: Handler, g: Handler)
    requires IsFresh(h) && IsFresh(g) && !h.Initiate? && !g.Initiate?
    ensures Run(s, [Spawn(h), Spawn(g)]) == s.(handlers := s.handlers + [h, g])
  {
    hide IsFresh;
    TwoSteps(s, Spawn(h), Spawn(g));
    assert s.handlers + [h] + [g] == s.handlers + [h, g];
  }

  lemma PartnersLockApart(h: Handler, g: Handler, p: string, q: string, v: string, w: string)
    requires h == Hook(p, v) && g == Hook(q, w) && p != q && IsTerminal(v) && IsTerminal(w)
    ensures h.Key() != g.Key()
  {
    BodyFacts(v);
    BodyFacts(w);
    hide ExtractTransactionId, Body, BuildCallbackLockKey, IsTerminal;
    PartnersSeparateKeys(p, q, ID);
  }

  /** Both callbacks stand in front of their write. */
  lemma TwoPartnersMeet(s: State, p: string, q: string, v: string, w: string)
    requires p != q && IsTerminal(v) && IsTerminal(w)
    requires s == READY.(handlers := READY.handlers + [Hook(p, v), Hook(q, w)])
    ensures var inside := Entered(s, 1, p, v, ROW);
            Run(s, Enter(1) + Enter(2)) == Entered(inside, 2, q, w, ROW)
  {
    SetupRuns();
    var h, g := Hook(p, v), Hook(q, w);
    PartnersLockApart(h, g, p, q, v, w);
    hide Run, Body, BuildCallbackLockKey, ExtractTransactionId, FindById, Enter, Handler.Key;
    RunConcat(s, Enter(1), Enter(2));
    EnterRuns(s, 1, p, v, ROW);
    EnterRuns(Entered(s, 1, p, v, ROW), 2, q, w, ROW);
  }

  lemma TwoPartnersWrite(s: State, p: string, q: string, v: string, w: string)
    requires p != q && IsTerminal(v) && IsTerminal(w)
    requires s == READY.(handlers := READY.handlers + [Hook(p, v), Hook(q, w)])
    ensures var inside := Entered(Entered(s, 1, p, v, ROW), 2, q, w, ROW);
            Run(inside, [Advance(1, Ok)] + [Advance(2, Ok)]) ==
            Wrote(Wrote(inside, 1, p, v, ROW), 2, q, w, ROW)
  {
    hide Run, Body, BuildCallbackLockKey, ExtractTransactionId, UpdateWhere, Hook, Handler.Key;
    var inside := Entered(Entered(s, 1, p, v, ROW), 2, q, w, ROW);
    RunConcat(inside, [Advance(1, Ok)], [Advance(2, Ok)]);
    WriteRuns(inside, 1, p, v, ROW);
    WriteRuns(Wrote(inside, 1, p, v, ROW), 2, q, w, ROW);
  }

  lemma TwoPartnersRun(s: State, p: string, q: string, v: string, w: string)
    requires p != q && IsTerminal(v) && IsTerminal(w)
    requires s == READY.(handlers := READY.handlers + [Hook(p, v), Hook(q, w)])
    ensures var inside := Entered(Entered(s, 1, p, v, ROW), 2, q, w, ROW);
            Run(INIT, TwoPartners(p, q, v, w)) == Wrote(Wrote(inside, 1, p, v, ROW), 2, q, w, ROW)
  {
    SetupRuns();
    var h, g := Hook(p, v), Hook(q, w);
    BodyFacts(v);
    BodyFacts(w);
    var entries, writes := Enter(1) + Enter(2), [Advance(1, Ok)] + [Advance(2, Ok)];
    TwoSpawns(READY, h, g);
    hide Run, Body, FindById, Enter, UpdateWhere, Handler.Key;
    RunConcat(INIT, SETUP, [Spawn(h), Spawn(g)] + (entries + writes));
    RunConcat(READY, [Spawn(h), Spawn(g)], entries + writes);
    RunConcat(s, entries, writes);
    TwoPartnersMeet(s, p, q, v, w);
    TwoPartnersWrite(s, p, q, v, w);
  }

  lemma TwoPartnersEnd(p: string, q: string, v: string, w: string)
    requires p != q && IsTerminal(v) && IsTerminal(w)
    ensures var s := Run(INIT, TwoPartners(p, q, v, w));
            && s.log == [Created(0, "REF", None),
                         Did(1, ID, Acquired), Did(1, ID, ReadUnprocessed), Did(1, ID, Validated),
                         Did(2, ID, Acquired), Did(2, ID, ReadUnprocessed), Did(2, ID, Validated),
                         Did(1, ID, WroteCallback(v, true)), Did(2, ID, WroteCallback(w, true))]
            && |s.handlers| == 3 && s.handlers[0].Initiate?
            && s.handlers[1].Callback? && s.handlers[1].partner == p
            && s.handlers[2].Callback? && s.handlers[2].partner == q
  {
    var s := READY.(handlers := READY.handlers + [Hook(p, v), Hook(q, w)]);
    TwoPartnersRun(s, p, q, v, w);
    hide Run, Body, UpdateWhere, Handler.Key, TwoPartners, IsTerminal;
  }

  lemma {:induction false} OccursAt(log: seq<Event>, i: nat, m: Measure)
    requires i < |log| && Counts(log[i], m)
    ensures Occurs(log, m) >= Occurs(log[..i], m) + 1
    decreases |log|
  {
    hide Counts;
    var before := log[..|log| - 1];
    if i < |before| {
      assert before[..i] == log[..i];
      OccursAt(before, i, m);
    }
  }

  lemma TwoInTheLog(log: seq<Event>, i: nat, j: nat, m: Measure)
    requires i < j < |log| && Counts(log[i], m) && Counts(log[j], m)
    ensures Occurs(log, m) >= 2
  {
    hide Counts;
    OccursAt(log, j, m);
    OccursAt(log[..j], i, m);
  }

  /** The lock key holds the partner a webhook claims, and nothing compares that partner with the row's. Any two partner
      names can therefore write one transaction twice, with any two outcomes, without any expiry or reset. */
  lemma TwoPartnersWriteTwice(p: string, q: string, v: string, w: string)
    requires p != q && IsTerminal(v) && IsTerminal(w)
    ensures var s := Run(INIT, TwoPartners(p, q, v, w));
            && NeverReset(s.log, ID) && OnlyPartners(s.handlers, ID, [p, q])
            && (forall e :: e in s.log ==> !e.Expired?)
            && Did(1, ID, WroteCallback(v, true)) in s.log && Did(2, ID, WroteCallback(w, true)) in s.log
            && Occurs(s.log, CallbackWrites(ID)) >= 2
  {
    TwoPartnersEnd(p, q, v, w);
    var s := Run(INIT, TwoPartners(p, q, v, w));
    hide Run, TwoPartners, IsTerminal;
    assert s.log[7] in s.log && s.log[8] in s.log;
    TwoInTheLog(s.log, 7, 8, CallbackWrites(ID));
  }
}
