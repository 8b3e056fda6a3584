/** How often callbacks can write a transaction's row, over every interleaving with crashes, lock expiries and
    unconditional deletes. */
module EffectivelyOnce {
  import opened Wrappers
  import opened PaymentDomain
  import opened PaymentTable
  import opened Protocol
  import opened ControlFlow
  import opened History
  import opened LockSafety
  import opened RowLife

  /** Every callback for `id` in the run was handled under one of these partner names. */
  predicate OnlyPartners(hs: seq<Handler>, id: string, partners: seq<string>) {
    forall i :: 0 <= i < |hs| && hs[i].Callback? && hs[i].Id() == id ==> hs[i].partner in partners
  }

  /** One write per lock key, and one more each time that key expired. */
  function Allowance(log: seq<Event>, id: string, partners: seq<string>): nat {
    if partners == [] then 0
    else 1 + Occurs(log, Expiries(BuildCallbackLockKey(partners[0], id))) + Allowance(log, id, partners[1..])
  }

  /** The holders of all the keys `id` can be locked under. */
  function HoldersOf(hs: seq<Handler>, id: string, partners: seq<string>): nat {
    if partners == [] then 0
    else Tally(hs, Holding(BuildCallbackLockKey(partners[0], id))) + HoldersOf(hs, id, partners[1..])
  }

  lemma {:induction false} HoldersOfAppend(hs: seq<Handler>, h: Handler, id: string, partners: seq<string>)
    ensures HoldersOf(hs + [h], id, partners) >= HoldersOf(hs, id, partners)
    ensures h.Callback? && h.Holds() && h.Id() == id && h.partner in partners ==>
              HoldersOf(hs + [h], id, partners) >= HoldersOf(hs, id, partners) + 1
  {
    if partners != [] {
      TallyAppend(hs, h, Holding(BuildCallbackLockKey(partners[0], id)));
      HoldersOfAppend(hs, h, id, partners[1..]);
    }
  }

  /** Whoever has read the row unprocessed and not yet written it holds one of the keys. */
  lemma {:induction false} ReadyHold(hs: seq<Handler>, id: string, partners: seq<string>)
    requires OnlyPartners(hs, id, partners)
    ensures Tally(hs, Ready(id)) <= HoldersOf(hs, id, partners)
    decreases |hs|
  {
    if hs != [] {
      var rest, h := hs[..|hs| - 1], hs[|hs| - 1];
      ReadyHold(rest, id, partners);
      assert hs == rest + [h];
      HoldersOfAppend(rest, h, id, partners);
    }
  }

  lemma {:induction false} HoldersWithinAllowance(labels: seq<Label>, id: string, partners: seq<string>)
    ensures var s := Run(INIT, labels);
            HoldersOf(s.handlers, id, partners) <= Allowance(s.log, id, partners)
    decreases partners
  {
    if partners != [] {
      LockDegradesGracefully(labels, BuildCallbackLockKey(partners[0], id));
      HoldersWithinAllowance(labels, id, partners[1..]);
    }
  }

  lemma {:induction false} AllowanceGrows(log: seq<Event>, event: Option<Event>, id: string, partners: seq<string>)
    ensures Allowance(Logged(log, event), id, partners) >= Allowance(log, id, partners)
    decreases partners
  {
    if partners != [] {
      OccursLogged(log, event, Expiries(BuildCallbackLockKey(partners[0], id)));
      AllowanceGrows(log, event, id, partners[1..]);
    }
  }

  /** Writes and impending writes of `id`. */
  function Pressure(s: State, id: string): nat {
    Tally(s.handlers, CallbackWrites(id)) + Tally(s.handlers, Ready(id))
  }

  ghost predicate RowProcessed(s: State, id: string) {
    var found := FindById(s.shared.rows, id);
    found.Some? && found.value.processed
  }

  /** A handler about to write has a row to write; a written row is processed. */
  ghost predicate WritesLand(s: State, id: string) {
    && WellFormed(s.shared.rows)
    && (Tally(s.handlers, Ready(id)) > 0 ==> FindById(s.shared.rows, id).Some?)
    && (Tally(s.handlers, CallbackWrites(id)) > 0 ==> RowProcessed(s, id))
  }

  predicate IsAct(event: Option<Event>, id: string, act: Act) {
    event.Some? && event.value.Did? && event.value.id == id && event.value.act == act
  }

  predicate IsCallbackWrite(event: Option<Event>, id: string) {
    event.Some? && event.value.Did? && event.value.id == id && event.value.act.WroteCallback?
  }

  lemma MovesPressure(me: nat, h: Handler, next: Handler, event: Option<Event>, id: string)
    requires Moves(me, h, next, event)
    ensures Weight(next, CallbackWrites(id)) == Weight(h, CallbackWrites(id)) + if IsCallbackWrite(event, id) then 1 else 0
    ensures Weight(next, Ready(id)) + Weight(next, CallbackWrites(id)) <=
            Weight(h, Ready(id)) + Weight(h, CallbackWrites(id)) + if IsAct(event, id, ReadUnprocessed) then 1 else 0
    ensures IsCallbackWrite(event, id) ==> Weight(h, Ready(id)) == 1
  {
    hide ExtractTransactionId, BuildCallbackLockKey;
  }

  lemma PressureAdvance(s: State, i: nat, n: Stepped, id: string)
    requires i < |s.handlers| && Shaped(s.shared, i, s.handlers[i], n)
    ensures var hs, ts := s.handlers, s.handlers[i := n.handler];
            && Tally(ts, CallbackWrites(id)) + Tally(ts, Ready(id)) <=
               Tally(hs, CallbackWrites(id)) + Tally(hs, Ready(id)) + (if IsAct(n.event, id, ReadUnprocessed) then 1 else 0)
            && Tally(ts, CallbackWrites(id)) == Tally(hs, CallbackWrites(id)) + (if IsCallbackWrite(n.event, id) then 1 else 0)
            && (IsCallbackWrite(n.event, id) ==> Tally(hs, Ready(id)) > 0)
            && (IsAct(n.event, id, ReadUnprocessed) ==>
                  FindById(s.shared.rows, id).Some? && !FindById(s.shared.rows, id).value.processed)
  {
    var h := s.handlers[i];
    MovesPressure(i, h, n.handler, n.event, id);
    TallyUpdate(s.handlers, i, n.handler, CallbackWrites(id));
    TallyUpdate(s.handlers, i, n.handler, Ready(id));
    TallyAtLeast(s.handlers, i, Ready(id));
    hide Weight, Effects, FindById, ExtractTransactionId, BuildCallbackLockKey, CheckMoves;
  }

  /** One label, for a transaction whose row it does not reset: pressure only rises by a read that finds the row
      unprocessed, and then the row is unprocessed afterwards too. */
  lemma PressureStep(s: State, l: Label, id: string)
    requires WritesLand(s, id) && NeverReset(Apply(s, l).log, id)
    ensures WritesLand(Apply(s, l), id)
    ensures Pressure(Apply(s, l), id) <= Pressure(s, id) || !RowProcessed(Apply(s, l), id)
  {
    hide HandlerStep, Shaped, FindById, WellFormed, Weight;
    var t := Apply(s, l);
    RowStep(s, l, id);
    assert LabelEvent(s, l).Some? ==> LabelEvent(s, l).value in t.log;
    match l
    case Spawn(h) =>
      if IsFresh(h) {
        TallyAppend(s.handlers, h, CallbackWrites(id));
        TallyAppend(s.handlers, h, Ready(id));
        assert Weight(h, CallbackWrites(id)) == 0 && Weight(h, Ready(id)) == 0 by { FreshWeightless(h, id); }
      }
    case Advance(i, o) =>
      if Active(s, i) {
        var n := ApplyAdvance(s, i, o);
        assert LabelEvent(s, l) == n.event;
        PressureAdvance(s, i, n, id);
      }
    case _ =>
  }

  lemma FreshWeightless(h: Handler, id: string)
    requires IsFresh(h)
    ensures Weight(h, CallbackWrites(id)) == 0 && Weight(h, Ready(id)) == 0
  {
  }

  lemma {:induction false} PressureBounded(labels: seq<Label>, id: string, partners: seq<string>)
    requires var s := Run(INIT, labels); NeverReset(s.log, id) && OnlyPartners(s.handlers, id, partners)
    ensures var s := Run(INIT, labels);
            WritesLand(s, id) && Pressure(s, id) <= Allowance(s.log, id, partners)
    decreases |labels|
  {
    hide Apply, Weight, FindById;
    var t := Run(INIT, labels);
    if labels != [] {
      var before, l := labels[..|labels| - 1], labels[|labels| - 1];
      var s := Run(INIT, before);
      HistoryGrows(s, l);
      assert NeverReset(s.log, id);
      assert OnlyPartners(s.handlers, id, partners);
      PressureBounded(before, id, partners);
      PressureStep(s, l, id);
      AllowanceGrows(s.log, LabelEvent(s, l), id, partners);
      RowStep(s, l, id);
      if !RowProcessed(t, id) {
        ReadyHold(t.handlers, id, partners);
        HoldersWithinAllowance(labels, id, partners);
      }
    }
  }

  /** The log only grows, and no handler ever changes its partner or its payload. */
  lemma HistoryGrows(s: State, l: Label)
    ensures s.log <= Apply(s, l).log
    ensures |s.handlers| <= |Apply(s, l).handlers|
    ensures forall i :: 0 <= i < |s.handlers| ==>
              var h, n := s.handlers[i], Apply(s, l).handlers[i];
              n.Id() == h.Id() && n.Key() == h.Key() && (h.Callback? ==> n.Callback? && n.partner == h.partner)
  {
    hide HandlerStep, Effects, ReadsTable, CallbackMoves, CheckMoves;
    match l
    case Advance(i, o) =>
      if Active(s, i) {
        var n := ApplyAdvance(s, i, o);
      }
    case _ =>
  }

  /** The main bound. In every interleaving, callback writes so far plus handlers that read the row unprocessed and
      have not written it stay within one per partner name in use plus one per expiry of those partners' keys. */
  lemma CallbacksWriteWithinAllowance(labels: seq<Label>, id: string, partners: seq<string>)
    requires var s := Run(INIT, labels); NeverReset(s.log, id) && OnlyPartners(s.handlers, id, partners)
    ensures var s := Run(INIT, labels);
            Occurs(s.log, CallbackWrites(id)) + Tally(s.handlers, Ready(id)) <= Allowance(s.log, id, partners)
  {
    PressureBounded(labels, id, partners);
    LogCountsAreTallies(labels, CallbackWrites(id));
  }

  /** One partner and no expiry: at most one write and at most one publish. */
  lemma CallbacksAreEffectivelyOnce(labels: seq<Label>, id: string, partner: string)
    requires var s := Run(INIT, labels);
             && NeverReset(s.log, id) && OnlyPartners(s.handlers, id, [partner])
             && Occurs(s.log, Expiries(BuildCallbackLockKey(partner, id))) == 0
    ensures Occurs(Run(INIT, labels).log, CallbackWrites(id)) <= 1
    ensures Occurs(Run(INIT, labels).log, CallbackPublishes(id)) <= Occurs(Run(INIT, labels).log, CallbackWrites(id))
  {
    var s := Run(INIT, labels);
    CallbacksWriteWithinAllowance(labels, id, [partner]);
    assert Allowance(s.log, id, [partner]) == 1 + Allowance(s.log, id, []);
    LogCountsAreTallies(labels, CallbackWrites(id));
    LogCountsAreTallies(labels, CallbackPublishes(id));
    TallyBound(s.handlers, CallbackPublishes(id), CallbackWrites(id));
  }
}
