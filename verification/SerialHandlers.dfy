/** Handlers that never overlap: at most two publishes per transaction, and one when the callback comes first. */
module SerialHandlers {
  import opened Wrappers
  import opened PaymentDomain
  import opened PaymentTable
  import opened World
  import opened Protocol
  import opened ControlFlow
  import opened History
  import opened RowLife
  import opened EffectivelyOnce
  import opened GatewayAgreement
  import opened FinalStatus

  ghost predicate Idle(s: State) {
    forall i: nat :: !Active(s, i)
  }

  /** A handler starts only when every earlier one has finished or crashed. */
  ghost predicate SerialRun(labels: seq<Label>) {
    forall k :: 0 <= k < |labels| && labels[k].Spawn? ==> Idle(Run(INIT, labels[..k]))
  }

  lemma SerialLast(labels: seq<Label>)
    requires labels != [] && SerialRun(labels)
    ensures SerialRun(labels[..|labels| - 1])
    ensures labels[|labels| - 1].Spawn? ==> Idle(Run(INIT, labels[..|labels| - 1]))
  {
    var before := labels[..|labels| - 1];
    assert forall k :: 0 <= k < |before| ==> before[..k] == labels[..k] && before[k] == labels[k];
  }

  /** The first write of `id` in the log. */
  function FirstWrite(log: seq<Event>, id: string): Option<Act>
    decreases |log|
  {
    if log == [] then None
    else
      var before, e := FirstWrite(log[..|log| - 1], id), log[|log| - 1];
      if before.Some? then before else if IsWrite(e, id) then Some(e.act) else None
  }

  lemma FirstWriteLogged(log: seq<Event>, event: Option<Event>, id: string)
    ensures FirstWrite(Logged(log, event), id) ==
            if FirstWrite(log, id).Some? then FirstWrite(log, id)
            else if event.Some? && IsWrite(event.value, id) then Some(event.value.act) else None
  {
    if event.Some? {
      assert (log + [event.value])[..|log|] == log;
    }
  }

  /** The handler's next write of `id` would come from a status check that read the row pending. */
  predicate WillCheckWrite(h: Handler, id: string) {
    h.Check? && h.id == id && (h.spc.AwaitQuery? || h.spc.AwaitStore?) && h.spc.row.status == PENDING
  }

  ghost predicate OneAtATime(s: State) {
    forall i: nat, j: nat :: Active(s, i) && Active(s, j) ==> i == j
  }

  ghost predicate NoLateCheck(s: State, id: string) {
    RowFinal(s, id) ==> forall i: nat :: Active(s, i) ==> !WillCheckWrite(s.handlers[i], id)
  }

  ghost predicate FewWrites(s: State, id: string) {
    && (FirstWrite(s.log, id).Some? ==> RowFinal(s, id))
    && Tally(s.handlers, TerminalCheckWrites(id)) <= 1
    && (!RowFinal(s, id) ==> Tally(s.handlers, TerminalCheckWrites(id)) == 0)
    && (FirstWrite(s.log, id).None? || FirstWrite(s.log, id).value.WroteCallback? ==>
          Tally(s.handlers, TerminalCheckWrites(id)) == 0)
  }

  ghost predicate SerialWrites(s: State, id: string) {
    OneAtATime(s) && NoLateCheck(s, id) && FewWrites(s, id)
  }

  lemma MovesLate(sh: Shared, me: nat, h: Handler, n: Stepped, id: string, settled: map<string, string>)
    requires Shaped(sh, me, h, n) && HandlerAgrees(h, settled) && HandlerAgrees(n.handler, settled)
    requires forall i :: i in settled ==> IsTerminal(settled[i])
    ensures WillCheckWrite(n.handler, id) ==>
              WillCheckWrite(h, id) || (FindById(sh.rows, id).Some? && FindById(sh.rows, id).value.status == PENDING)
    ensures n.event.Some? && IsWrite(n.event.value, id) ==> !WillCheckWrite(n.handler, id)
    ensures n.event.Some? && Counts(n.event.value, TerminalCheckWrites(id)) ==>
              WillCheckWrite(h, id) && IsWrite(n.event.value, id)
    ensures Weight(n.handler, TerminalCheckWrites(id)) ==
            Weight(h, TerminalCheckWrites(id)) +
            if n.event.Some? && Counts(n.event.value, TerminalCheckWrites(id)) then 1 else 0
  {
    MovesCount(me, h, n.handler, n.event, TerminalCheckWrites(id));
    hide Weight, Effects, ExtractTransactionId, BuildCallbackLockKey, FindById, CallbackMoves;
  }

  /** A row that becomes final does so by a logged write. */
  lemma FinalByWrite(s: State, l: Label, id: string)
    requires Agreement(s) && NeverReset(Apply(s, l).log, id)
    requires !RowFinal(s, id) && RowFinal(Apply(s, l), id)
    ensures LabelEvent(s, l).Some? && IsWrite(LabelEvent(s, l).value, id)
  {
    hide HandlerStep, HandlerAgrees, WellFormed;
    assert WellFormed(s.shared.rows) by { AgreementWellFormed(s); }
    RowStep(s, l, id);
    assert LabelEvent(s, l).Some? ==> LabelEvent(s, l).value in Apply(s, l).log;
  }

  lemma OrderAdvance(s: State, i: nat, next: Handler, t: State, id: string)
    requires OneAtATime(s) && NoLateCheck(s, id) && Active(s, i)
    requires t.handlers == s.handlers[i := next] && t.crashed == s.crashed
    requires RowFinal(t, id) ==> WillCheckWrite(next, id) ==> RowFinal(s, id) && WillCheckWrite(s.handlers[i], id)
    ensures OneAtATime(t) && NoLateCheck(t, id)
  {
    hide WillCheckWrite, RowFinal;
    assert forall j: nat :: Active(t, j) ==> Active(s, j);
    forall j: nat | Active(t, j) && RowFinal(t, id)
      ensures !WillCheckWrite(t.handlers[j], id)
    {
      assert Active(s, j) && j == i;
    }
  }

  lemma CountsAdvance(s: State, i: nat, n: Stepped, t: State, id: string)
    requires FewWrites(s, id) && NoLateCheck(s, id) && Active(s, i)
    requires t.handlers == s.handlers[i := n.handler] && t.log == Logged(s.log, n.event)
    requires RowFinal(s, id) ==> RowFinal(t, id)
    requires n.event.Some? && IsWrite(n.event.value, id) ==> RowFinal(t, id)
    requires var counted := n.event.Some? && Counts(n.event.value, TerminalCheckWrites(id));
             && (counted ==> WillCheckWrite(s.handlers[i], id) && IsWrite(n.event.value, id) && n.event.value.act.WroteCheck?)
             && Weight(n.handler, TerminalCheckWrites(id)) ==
                Weight(s.handlers[i], TerminalCheckWrites(id)) + (if counted then 1 else 0)
    ensures FewWrites(t, id)
  {
    hide WillCheckWrite, RowFinal, Weight, IsWrite, Counts, FirstWrite;
    TallyUpdate(s.handlers, i, n.handler, TerminalCheckWrites(id));
    FirstWriteLogged(s.log, n.event, id);
  }

  lemma SerialAdvance(s: State, i: nat, n: Stepped, t: State, id: string)
    requires SerialWrites(s, id) && Active(s, i) && Shaped(s.shared, i, s.handlers[i], n)
    requires HandlerAgrees(s.handlers[i], s.settled) && HandlerAgrees(n.handler, s.settled)
    requires forall j :: j in s.settled ==> IsTerminal(s.settled[j])
    requires t.handlers == s.handlers[i := n.handler] && t.log == Logged(s.log, n.event) && t.crashed == s.crashed
    requires RowFinal(s, id) ==> RowFinal(t, id)
    requires n.event.Some? && IsWrite(n.event.value, id) ==> RowFinal(t, id)
    requires !RowFinal(s, id) && RowFinal(t, id) ==> n.event.Some? && IsWrite(n.event.value, id)
    ensures SerialWrites(t, id)
  {
    MovesLate(s.shared, i, s.handlers[i], n, id, s.settled);
    assert RowFinal(s, id) ==> FindById(s.shared.rows, id).value.status != PENDING;
    hide Shaped, Weight, FirstWrite, IsWrite, WillCheckWrite, HandlerAgrees, OneAtATime, NoLateCheck, FewWrites;
    OrderAdvance(s, i, n.handler, t, id);
    CountsAdvance(s, i, n, t, id);
  }

  lemma SerialSpawn(s: State, h: Handler, id: string)
    requires SerialWrites(s, id) && Idle(s)
    ensures SerialWrites(Apply(s, Spawn(h)), id)
  {
    hide RowFinal, Weight, FirstWrite, WillCheckWrite;
    if IsFresh(h) {
      var t := Apply(s, Spawn(h));
      TallyAppend(s.handlers, h, TerminalCheckWrites(id));
      FreshChecksNothing(h, id);
      hide IsFresh;
      assert RowFinal(t, id) == RowFinal(s, id) by { SameRowsSameFinal(s, t, id); }
      forall j: nat | Active(t, j)
        ensures j == |s.handlers|
      {
        assert j < |s.handlers| ==> Active(s, j);
      }
    }
  }

  lemma SameRowsSameFinal(s: State, t: State, id: string)
    requires t.shared.rows == s.shared.rows
    ensures RowFinal(t, id) == RowFinal(s, id)
  {
  }

  /** A step of a live handler, in a state of which everything is known. */
  lemma SerialMove(s: State, i: nat, o: Outcome, id: string)
    requires SerialWrites(s, id) && WritersHaveRows(s, id) && Active(s, i)
    requires Agreement(s) && Agreement(Apply(s, Advance(i, o))) && NeverReset(Apply(s, Advance(i, o)).log, id)
    ensures SerialWrites(Apply(s, Advance(i, o)), id)
  {
    hide HandlerStep, Shaped, RowFinal, Agreement, IsWrite, WritersHaveRows, SerialWrites, HandlerAgrees;
    var l := Advance(i, o);
    var t := Apply(s, l);
    FinalStep(s, l, id);
    if !RowFinal(s, id) && RowFinal(t, id) {
      FinalByWrite(s, l, id);
    }
    var n := ApplyAdvance(s, i, o);
    assert LabelEvent(s, l) == n.event;
    WriterHasRow(s, i, n, id);
    AgreementAt(s, i);
    AgreementAt(t, i);
    SerialAdvance(s, i, n, t, id);
  }

  lemma SerialStep(s: State, l: Label, id: string)
    requires SerialWrites(s, id) && WritersHaveRows(s, id)
    requires Agreement(s) && Agreement(Apply(s, l)) && NeverReset(Apply(s, l).log, id)
    requires l.Spawn? ==> Idle(s)
    ensures SerialWrites(Apply(s, l), id)
  {
    match l
    case Spawn(h) => SerialSpawn(s, h, id);
    case Advance(i, o) =>
      if Active(s, i) {
        SerialMove(s, i, o, id);
      }
    case _ => SerialOther(s, l, id);
  }

  lemma SerialOther(s: State, l: Label, id: string)
    requires SerialWrites(s, id) && Agreement(s) && Agreement(Apply(s, l)) && NeverReset(Apply(s, l).log, id)
    requires !l.Spawn? && !l.Advance?
    ensures SerialWrites(Apply(s, l), id)
  {
    hide RowFinal, Agreement, IsWrite, Weight, FirstWrite, WillCheckWrite;
    var t := Apply(s, l);
    FinalStep(s, l, id);
    if !RowFinal(s, id) && RowFinal(t, id) {
      FinalByWrite(s, l, id);
    }
    assert forall j: nat :: Active(t, j) ==> Active(s, j);
    if l.Expire? {
      FirstWriteLogged(s.log, Some(Expired(l.key)), id);
      ExpiryIsNoWrite(l.key, id);
    }
  }

  lemma AgreementAt(s: State, i: nat)
    requires Agreement(s) && i < |s.handlers|
    ensures HandlerAgrees(s.handlers[i], s.settled)
    ensures forall j :: j in s.settled ==> IsTerminal(s.settled[j])
  {
  }

  lemma FreshChecksNothing(h: Handler, id: string)
    requires IsFresh(h)
    ensures Weight(h, TerminalCheckWrites(id)) == 0 && !WillCheckWrite(h, id)
  {
  }

  lemma ExpiryIsNoWrite(key: string, id: string)
    ensures !IsWrite(Expired(key), id)
  {
  }

  lemma WriterHasRow(s: State, i: nat, n: Stepped, id: string)
    requires Active(s, i) && Shaped(s.shared, i, s.handlers[i], n) && WritersHaveRows(s, id)
    ensures n.event.Some? && IsWrite(n.event.value, id) ==> FindById(s.shared.rows, id).Some?
  {
    MovesWrite(s.shared, i, s.handlers[i], n, s.handlers[i].Id());
    hide Shaped, FindById, WillWrite, ExtractTransactionId;
  }

  lemma {:induction false} SerialThroughout(labels: seq<Label>, id: string)
    requires HonestRun(labels, {PENDING}) && SerialRun(labels) && NeverReset(Run(INIT, labels).log, id)
    ensures SerialWrites(Run(INIT, labels), id)
    decreases |labels|
  {
    hide Apply, HonestLabel, FindById, Agreement;
    if labels != [] {
      var before, l := labels[..|labels| - 1], labels[|labels| - 1];
      HonestLast(labels, {PENDING});
      SerialLast(labels);
      AgreementThroughout(labels);
      AgreementThroughout(before);
      HistoryGrows(Run(INIT, before), l);
      assert NeverReset(Run(INIT, before).log, id);
      WritersThroughout(before, id);
      SerialThroughout(before, id);
      SerialStep(Run(INIT, before), l, id);
    }
  }

  /** Without overlap, expiry and a second partner, a transaction is published at most twice; and only once if the
      callback was the first to write the row. */
  lemma {:induction false} SerialPublishesBounded(labels: seq<Label>, id: string, partner: string)
    requires HonestRun(labels, {PENDING}) && SerialRun(labels)
    requires var s := Run(INIT, labels);
             && NeverReset(s.log, id) && OnlyPartners(s.handlers, id, [partner])
             && Occurs(s.log, Expiries(BuildCallbackLockKey(partner, id))) == 0
    ensures var log := Run(INIT, labels).log;
            && Occurs(log, Publishes(id)) <= 2
            && (FirstWrite(log, id).Some? && FirstWrite(log, id).value.WroteCallback? ==> Occurs(log, Publishes(id)) <= 1)
  {
    hide Run, HonestRun, SerialRun, RowFinal;
    CallbacksAreEffectivelyOnce(labels, id, partner);
    SerialThroughout(labels, id);
    LogCountsAreTallies(labels, Publishes(id));
    LogCountsAreTallies(labels, CallbackWrites(id));
    TallySplit(Run(INIT, labels).handlers, id);
  }
}
