/** What the log says about a handler, and how to count: every handler's own part of the log is its program text
    up to its program counter, and counting log entries is the same as adding up handlers. */
module History {
  import opened Wrappers
  import opened PaymentDomain
  import opened PaymentTable
  import opened World
  import opened Protocol
  import opened ControlFlow

  // ---------- A handler's own history ----------

  /** The acts of handler `i`, in log order. */
  function Trace(log: seq<Event>, i: nat): seq<Act>
    decreases |log|
  {
    if log == [] then []
    else
      var before, e := Trace(log[..|log| - 1], i), log[|log| - 1];
      if e.Did? && e.who == i then before + [e.act] else before
  }

  function ExitActs(exit: Exit): seq<Act> {
    match exit
    case LockFailed(stray) => if stray then [AcquiredBlindly] else []
    case MissFailed(_) => []
    case Missed(_) => []
    case ReadFailed(_) => [Acquired]
    case Duplicate(_) => [Acquired]
    case ConfigFailed(_) => [Acquired, ReadUnprocessed]
    case UpdateFailed(status, applied) =>
      [Acquired, ReadUnprocessed, Validated] + if applied then [WroteCallback(status, false)] else []
    case Processed(_, status) =>
      [Acquired, ReadUnprocessed, Validated, WroteCallback(status, true), PublishedCallback(status), Notified(status)]
  }

  function ReleaseActs(release: Release): seq<Act> {
    match release
    case NotHeld => []
    case Freed(owner) => [Deleted(owner)]
    case FreedThrew(owner) => [Deleted(owner)]
    case StuckThrew => []
  }

  function CallbackActs(pc: CallbackPc): seq<Act> {
    match pc
    case AwaitLock => []
    case AwaitMissRead => []
    case AwaitRead => [Acquired]
    case AwaitConfig(_) => [Acquired, ReadUnprocessed]
    case AwaitUpdate(_, _) => [Acquired, ReadUnprocessed, Validated]
    case AwaitPublish(_, status) => [Acquired, ReadUnprocessed, Validated, WroteCallback(status, true)]
    case AwaitNotify(_, status) =>
      [Acquired, ReadUnprocessed, Validated, WroteCallback(status, true), PublishedCallback(status)]
    case AwaitRelease(exit) => ExitActs(exit)
    case CallbackDone(exit, release) => ExitActs(exit) + ReleaseActs(release)
  }

  function CheckActs(pc: CheckPc): seq<Act> {
    match pc
    case AwaitFind => []
    case AwaitQuery(row) => [ReadForCheck(row.status)]
    case AwaitStore(row, _) => [ReadForCheck(row.status)]
    case AwaitCheckPublish(row, word) => [ReadForCheck(row.status), WroteCheck(word, true)]
    case AwaitCheckNotify(row, word) => [ReadForCheck(row.status), WroteCheck(word, true), PublishedCheck(word)]
    case CheckDone(exit) =>
      match exit
      case FindFailed(_) => []
      case QueryFailed(row, _) => [ReadForCheck(row.status)]
      case Unchanged(row) => [ReadForCheck(row.status)]
      case StoreFailed(row, word, applied) =>
        [ReadForCheck(row.status)] + if applied then [WroteCheck(word, false)] else []
      case Stored(row, word) => [ReadForCheck(row.status), WroteCheck(word, true)]
      case Announced(row, word) =>
        [ReadForCheck(row.status), WroteCheck(word, true), PublishedCheck(word), Notified(word)]
  }

  /** The acts the program text has performed by the handler's program counter. */
  function Expected(h: Handler): seq<Act> {
    match h
    case Callback(_, _, _, pc) => CallbackActs(pc)
    case Check(_, pc) => CheckActs(pc)
    case Initiate(_, _, _) => []
  }

  /** The acts an event adds to its handler's history. */
  function Added(event: Option<Event>): seq<Act> {
    if ActOf(event).Some? then [ActOf(event).value] else []
  }

  lemma CallbackMovesActs(pc: CallbackPc, next: CallbackPc, act: Option<Act>)
    requires CallbackMoves(pc, next, act)
    ensures CallbackActs(next) == CallbackActs(pc) + if act.Some? then [act.value] else []
  {
  }

  lemma CheckMovesActs(pc: CheckPc, next: CheckPc, act: Option<Act>)
    requires CheckMoves(pc, next, act)
    ensures CheckActs(next) == CheckActs(pc) + if act.Some? then [act.value] else []
  {
  }

  lemma MovesActs(me: nat, h: Handler, next: Handler, event: Option<Event>)
    requires Moves(me, h, next, event)
    ensures Expected(next) == Expected(h) + Added(event)
    ensures next.Id() == h.Id() && next.Key() == h.Key()
    ensures event.Some? && event.value.Did? ==> event.value.who == me && event.value.id == h.Id()
  {
    hide CallbackMoves, CheckMoves, CallbackActs, CheckActs, ExtractTransactionId, BuildCallbackLockKey;
    match h
    case Callback(_, _, _, pc) => CallbackMovesActs(pc, next.cpc, ActOf(event));
    case Check(_, pc) => CheckMovesActs(pc, next.spc, ActOf(event));
    case Initiate(_, _, _) =>
  }

  ghost predicate OwnHistory(s: State) {
    && (forall i :: 0 <= i < |s.handlers| ==> Trace(s.log, i) == Expected(s.handlers[i]))
    && (forall e :: e in s.log && e.Did? ==> e.who < |s.handlers| && e.id == s.handlers[e.who].Id())
  }

  lemma {:induction false} TraceEmpty(log: seq<Event>, i: nat)
    requires forall e :: e in log && e.Did? ==> e.who != i
    ensures Trace(log, i) == []
    decreases |log|
  {
    if log != [] {
      assert log[|log| - 1] in log;
      TraceEmpty(log[..|log| - 1], i);
    }
  }

  lemma TraceLogged(log: seq<Event>, event: Option<Event>, i: nat)
    ensures Trace(Logged(log, event), i) ==
            Trace(log, i) + if event.Some? && event.value.Did? && event.value.who == i then [event.value.act] else []
  {
    if event.Some? {
      assert (log + [event.value])[..|log|] == log;
    }
  }

  lemma OwnHistoryAdvance(s: State, i: nat, n: Stepped)
    requires OwnHistory(s) && i < |s.handlers| && Moves(i, s.handlers[i], n.handler, n.event)
    ensures OwnHistory(s.(handlers := s.handlers[i := n.handler], log := Logged(s.log, n.event)))
  {
    hide Moves, Expected, Trace;
    var hs, log := s.handlers[i := n.handler], Logged(s.log, n.event);
    MovesActs(i, s.handlers[i], n.handler, n.event);
    forall j | 0 <= j < |hs|
      ensures Trace(log, j) == Expected(hs[j])
    {
      TraceLogged(s.log, n.event, j);
    }
  }

  lemma OwnHistoryStep(s: State, l: Label)
    requires OwnHistory(s)
    ensures OwnHistory(Apply(s, l))
  {
    hide HandlerStep, Moves, Effects, ReadsTable;
    match l
    case Spawn(h) =>
      if IsFresh(h) {
        TraceEmpty(s.log, |s.handlers|);
      }
    case Advance(i, o) =>
      if Active(s, i) {
        var n := ApplyAdvance(s, i, o);
        OwnHistoryAdvance(s, i, n);
      }
    case Expire(key) =>
      forall j | 0 <= j < |s.handlers|
        ensures Trace(Logged(s.log, Some(Expired(key))), j) == Expected(s.handlers[j])
      {
        TraceLogged(s.log, Some(Expired(key)), j);
      }
    case _ =>
  }

  /** In every reachable state, a handler's own part of the log is exactly the prefix of its program text that its
      program counter has passed: the lock before the read, the read before the signature check, the check before
      the write, the write before the publish, the publish before the notice, and the release last. */
  lemma {:induction false} EveryHandlerFollowsItsText(labels: seq<Label>)
    ensures OwnHistory(Run(INIT, labels))
    decreases |labels|
  {
    if labels != [] {
      EveryHandlerFollowsItsText(labels[..|labels| - 1]);
      OwnHistoryStep(Run(INIT, labels[..|labels| - 1]), labels[|labels| - 1]);
    }
  }

  lemma {:induction false} TraceInLog(log: seq<Event>, i: nat, act: Act)
    requires act in Trace(log, i)
    ensures exists k :: 0 <= k < |log| && log[k].Did? && log[k].who == i && log[k].act == act
    decreases |log|
  {
    var last := log[|log| - 1];
    if !(last.Did? && last.who == i && last.act == act) {
      TraceInLog(log[..|log| - 1], i, act);
      var k :| 0 <= k < |log| - 1 && log[..|log| - 1][k].Did? && log[..|log| - 1][k].who == i && log[..|log| - 1][k].act == act;
      assert log[k].Did?;
    }
  }

  // ---------- Counting ----------

  /** Things to count. The first group is counted in the log, the second only over handlers. */
  datatype Measure =
    | CallbackWrites(id: string)
    | TerminalCheckWrites(id: string)
    | AnnouncedWrites(id: string)
    | Publishes(id: string)
    | CallbackPublishes(id: string)
    | PendingReads(id: string)
    | Expiries(key: string)
    // ---
    | Holding(key: string)
    | Ready(id: string)
    | MidPublish(id: string)

  predicate InLog(m: Measure) {
    m.CallbackWrites? || m.TerminalCheckWrites? || m.AnnouncedWrites? || m.Publishes? ||
    m.CallbackPublishes? || m.PendingReads?
  }

  predicate Counts(e: Event, m: Measure) {
    match m
    case CallbackWrites(id) => e.Did? && e.id == id && e.act.WroteCallback?
    case TerminalCheckWrites(id) => e.Did? && e.id == id && e.act.WroteCheck? && IsTerminal(e.act.status)
    case AnnouncedWrites(id) =>
      e.Did? && e.id == id && ((e.act.WroteCallback? && e.act.acknowledged) ||
                               (e.act.WroteCheck? && e.act.acknowledged && IsTerminal(e.act.status)))
    case Publishes(id) => e.Did? && e.id == id && (e.act.PublishedCallback? || e.act.PublishedCheck?)
    case CallbackPublishes(id) => e.Did? && e.id == id && e.act.PublishedCallback?
    case PendingReads(id) => e.Did? && e.id == id && e.act == ReadForCheck(PENDING)
    case Expiries(key) => e == Expired(key)
    case _ => false
  }

  function Occurs(log: seq<Event>, m: Measure): nat
    decreases |log|
  {
    if log == [] then 0
    else Occurs(log[..|log| - 1], m) + if Counts(log[|log| - 1], m) then 1 else 0
  }

  lemma OccursLogged(log: seq<Event>, event: Option<Event>, m: Measure)
    ensures Occurs(Logged(log, event), m) == Occurs(log, m) + if event.Some? && Counts(event.value, m) then 1 else 0
  {
    if event.Some? {
      assert (log + [event.value])[..|log|] == log;
    }
  }

  /** The exit the handler has already taken, if any. */
  function ExitOf(pc: CallbackPc): Option<Exit> {
    match pc
    case AwaitRelease(exit) => Some(exit)
    case CallbackDone(exit, _) => Some(exit)
    case _ => None
  }

  predicate HasWritten(pc: CallbackPc) {
    var x := ExitOf(pc);
    || pc.AwaitPublish? || pc.AwaitNotify?
    || (x.Some? && (x.value.Processed? || (x.value.UpdateFailed? && x.value.applied)))
  }

  predicate CallbackWeighs(h: Handler, m: Measure)
    requires h.Callback?
  {
    var pc, x := h.cpc, ExitOf(h.cpc);
    match m
    case CallbackWrites(id) => h.Id() == id && HasWritten(pc)
    case TerminalCheckWrites(_) => false
    case AnnouncedWrites(id) => h.Id() == id && (pc.AwaitPublish? || pc.AwaitNotify? || (x.Some? && x.value.Processed?))
    case Publishes(id) => h.Id() == id && (pc.AwaitNotify? || (x.Some? && x.value.Processed?))
    case CallbackPublishes(id) => h.Id() == id && (pc.AwaitNotify? || (x.Some? && x.value.Processed?))
    case PendingReads(_) => false
    case Expiries(_) => false
    case Holding(key) => h.Key() == key && h.Holds()
    case Ready(id) => h.Id() == id && (pc.AwaitConfig? || pc.AwaitUpdate?)
    case MidPublish(id) => h.Id() == id && pc.AwaitPublish?
  }

  predicate CheckWeighs(h: Handler, m: Measure)
    requires h.Check?
  {
    var pc := h.spc;
    match m
    case TerminalCheckWrites(id) =>
      h.id == id && (pc.AwaitCheckPublish? || pc.AwaitCheckNotify? ||
                     (pc.CheckDone? && (pc.exit.Announced? || (pc.exit.Stored? && IsTerminal(pc.exit.word)) ||
                                        (pc.exit.StoreFailed? && pc.exit.applied && IsTerminal(pc.exit.word)))))
    case AnnouncedWrites(id) =>
      h.id == id && (pc.AwaitCheckPublish? || pc.AwaitCheckNotify? || (pc.CheckDone? && pc.exit.Announced?))
    case Publishes(id) => h.id == id && (pc.AwaitCheckNotify? || (pc.CheckDone? && pc.exit.Announced?))
    case PendingReads(id) => h.id == id && CheckActs(pc) != [] && CheckActs(pc)[0] == ReadForCheck(PENDING)
    case MidPublish(id) => h.id == id && pc.AwaitCheckPublish?
    case _ => false
  }

  function Weight(h: Handler, m: Measure): nat {
    match h
    case Callback(_, _, _, _) => if CallbackWeighs(h, m) then 1 else 0
    case Check(_, _) => if CheckWeighs(h, m) then 1 else 0
    case Initiate(_, _, _) => 0
  }

  function Tally(hs: seq<Handler>, m: Measure): nat
    decreases |hs|
  {
    if hs == [] then 0 else Tally(hs[..|hs| - 1], m) + Weight(hs[|hs| - 1], m)
  }

  lemma TallyAppend(hs: seq<Handler>, h: Handler, m: Measure)
    ensures Tally(hs + [h], m) == Tally(hs, m) + Weight(h, m)
  {
    assert (hs + [h])[..|hs|] == hs;
  }

  lemma {:induction false} TallyUpdate(hs: seq<Handler>, i: nat, h: Handler, m: Measure)
    requires i < |hs|
    ensures Tally(hs[i := h], m) + Weight(hs[i], m) == Tally(hs, m) + Weight(h, m)
    decreases |hs|
  {
    var n := |hs| - 1;
    if i == n {
      assert hs[i := h][..n] == hs[..n];
    } else {
      assert hs[i := h][..n] == hs[..n][i := h];
      TallyUpdate(hs[..n], i, h, m);
    }
  }

  lemma {:induction false} TallyPositive(hs: seq<Handler>, m: Measure)
    requires Tally(hs, m) > 0
    ensures exists i :: 0 <= i < |hs| && Weight(hs[i], m) > 0
    decreases |hs|
  {
    if Weight(hs[|hs| - 1], m) == 0 {
      TallyPositive(hs[..|hs| - 1], m);
      var i :| 0 <= i < |hs| - 1 && Weight(hs[..|hs| - 1][i], m) > 0;
      assert Weight(hs[i], m) > 0;
    }
  }

  lemma {:induction false} TallyAtLeast(hs: seq<Handler>, i: nat, m: Measure)
    requires i < |hs|
    ensures Tally(hs, m) >= Weight(hs[i], m)
    decreases |hs|
  {
    if i < |hs| - 1 {
      TallyAtLeast(hs[..|hs| - 1], i, m);
    }
  }

  /** A pointwise bound on weights is a bound on tallies. */
  lemma {:induction false} TallyBound(hs: seq<Handler>, m: Measure, n: Measure)
    requires forall i :: 0 <= i < |hs| ==> Weight(hs[i], m) <= Weight(hs[i], n)
    ensures Tally(hs, m) <= Tally(hs, n)
    decreases |hs|
  {
    if hs != [] {
      TallyBound(hs[..|hs| - 1], m, n);
    }
  }

  lemma CallbackMovesCount(me: nat, h: Handler, next: Handler, event: Option<Event>, m: Measure)
    requires InLog(m) && h.Callback? && Moves(me, h, next, event)
    ensures Weight(next, m) == Weight(h, m) + if event.Some? && Counts(event.value, m) then 1 else 0
  {
    hide ExtractTransactionId, BuildCallbackLockKey;
  }

  lemma CheckMovesCount(me: nat, h: Handler, next: Handler, event: Option<Event>, m: Measure)
    requires InLog(m) && h.Check? && Moves(me, h, next, event)
    ensures Weight(next, m) == Weight(h, m) + if event.Some? && Counts(event.value, m) then 1 else 0
  {
  }

  lemma MovesCount(me: nat, h: Handler, next: Handler, event: Option<Event>, m: Measure)
    requires InLog(m) && Moves(me, h, next, event)
    ensures Weight(next, m) == Weight(h, m) + if event.Some? && Counts(event.value, m) then 1 else 0
  {
    match h
    case Callback(_, _, _, _) => hide Moves; CallbackMovesCount(me, h, next, event, m);
    case Check(_, _) => hide Moves; CheckMovesCount(me, h, next, event, m);
    case Initiate(_, _, _) =>
  }

  lemma AdvanceCounts(s: State, i: nat, n: Stepped, m: Measure)
    requires i < |s.handlers|
    requires Occurs(s.log, m) == Tally(s.handlers, m)
    requires Weight(n.handler, m) == Weight(s.handlers[i], m) + if n.event.Some? && Counts(n.event.value, m) then 1 else 0
    ensures Occurs(Logged(s.log, n.event), m) == Tally(s.handlers[i := n.handler], m)
  {
    TallyUpdate(s.handlers, i, n.handler, m);
    OccursLogged(s.log, n.event, m);
  }

  lemma LogCountsAdvance(s: State, i: nat, o: Outcome, m: Measure)
    requires InLog(m) && Occurs(s.log, m) == Tally(s.handlers, m) && Active(s, i)
    ensures Occurs(Apply(s, Advance(i, o)).log, m) == Tally(Apply(s, Advance(i, o)).handlers, m)
  {
    hide HandlerStep, Moves, Effects, ReadsTable, Weight, Counts;
    var n := ApplyAdvance(s, i, o);
    MovesCount(i, s.handlers[i], n.handler, n.event, m);
    AdvanceCounts(s, i, n, m);
  }

  lemma FreshCountsNothing(h: Handler, m: Measure)
    requires InLog(m) && IsFresh(h)
    ensures Weight(h, m) == 0
  {
    hide ExtractTransactionId, BuildCallbackLockKey;
  }

  lemma LogCountsStep(s: State, l: Label, m: Measure)
    requires InLog(m) && Occurs(s.log, m) == Tally(s.handlers, m)
    ensures Occurs(Apply(s, l).log, m) == Tally(Apply(s, l).handlers, m)
  {
    hide HandlerStep, WellFormed, FindById, Bind, IsFresh, Weight, Occurs, Tally;
    match l
    case Spawn(h) =>
      if IsFresh(h) {
        FreshCountsNothing(h, m);
        TallyAppend(s.handlers, h, m);
      }
    case Advance(i, o) =>
      if Active(s, i) {
        LogCountsAdvance(s, i, o, m);
      }
    case Expire(key) => OccursLogged(s.log, Some(Expired(key)), m);
    case _ =>
  }

  /** In every reachable state, counting acts in the log is adding up handlers. */
  lemma {:induction false} LogCountsAreTallies(labels: seq<Label>, m: Measure)
    requires InLog(m)
    ensures Occurs(Run(INIT, labels).log, m) == Tally(Run(INIT, labels).handlers, m)
    decreases |labels|
  {
    if labels != [] {
      LogCountsAreTallies(labels[..|labels| - 1], m);
      LogCountsStep(Run(INIT, labels[..|labels| - 1]), labels[|labels| - 1], m);
    }
  }
}
