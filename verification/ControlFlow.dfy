/** Steps, abstracted: which program counter can follow which and what goes into the log, and what a logged event
    means for the table and the locks. Everything proved about runs rests on these two relations. */
module ControlFlow {
  import opened Wrappers
  import opened PaymentDomain
  import opened PaymentTable
  import opened World
  import opened Protocol

  /** The control-flow graph of `handleCallback`, each edge with the act it logs. */
  predicate CallbackMoves(pc: CallbackPc, next: CallbackPc, act: Option<Act>) {
    match pc
    case AwaitLock =>
      || (next.AwaitRead? && act == Some(Acquired))
      || (next.AwaitMissRead? && act.None?)
      || (next.CallbackDone? && next.release.NotHeld? && next.exit.LockFailed? &&
          act == if next.exit.stray then Some(AcquiredBlindly) else None)
    case AwaitMissRead =>
      act.None? && next.CallbackDone? && next.release.NotHeld? && (next.exit.MissFailed? || next.exit.Missed?)
    case AwaitRead =>
      || (next.AwaitConfig? && !next.row.processed && act == Some(ReadUnprocessed))
      || (next.AwaitRelease? && act.None? &&
          (next.exit.ReadFailed? || (next.exit.Duplicate? && next.exit.row.processed)))
    case AwaitConfig(row) =>
      || (next.AwaitUpdate? && next.row == row && act == Some(Validated))
      || (next.AwaitRelease? && next.exit.ConfigFailed? && act.None?)
    case AwaitUpdate(row, status) =>
      || (next == AwaitPublish(row, status) && act == Some(WroteCallback(status, true)))
      || (next.AwaitRelease? && next.exit.UpdateFailed? && next.exit.status == status &&
          act == if next.exit.applied then Some(WroteCallback(status, false)) else None)
    case AwaitPublish(row, status) => next == AwaitNotify(row, status) && act == Some(PublishedCallback(status))
    case AwaitNotify(row, status) => next == AwaitRelease(Processed(row, status)) && act == Some(Notified(status))
    case AwaitRelease(exit) =>
      next.CallbackDone? && next.exit == exit &&
      (match next.release
       case NotHeld => false
       case Freed(owner) => act == Some(Deleted(owner))
       case FreedThrew(owner) => act == Some(Deleted(owner))
       case StuckThrew => act.None?)
    case CallbackDone(_, _) => next == pc && act.None?
  }

  /** The control-flow graph of `statusCheck`. */
  predicate CheckMoves(pc: CheckPc, next: CheckPc, act: Option<Act>) {
    match pc
    case AwaitFind =>
      || (next.AwaitQuery? && act == Some(ReadForCheck(next.row.status)))
      || (next.CheckDone? && next.exit.FindFailed? && act.None?)
    case AwaitQuery(row) =>
      act.None? && ((next.AwaitStore? && next.row == row && next.word != row.status) ||
                    (next.CheckDone? && (next.exit.QueryFailed? || next.exit.Unchanged?) && next.exit.row == row))
    case AwaitStore(row, word) =>
      || (next == AwaitCheckPublish(row, word) && IsTerminal(word) && act == Some(WroteCheck(word, true)))
      || (next == CheckDone(Stored(row, word)) && !IsTerminal(word) && act == Some(WroteCheck(word, true)))
      || (next.CheckDone? && next.exit == StoreFailed(row, word, act.Some?) &&
          (act.Some? ==> act.value == WroteCheck(word, false)))
    case AwaitCheckPublish(row, word) => next == AwaitCheckNotify(row, word) && act == Some(PublishedCheck(word))
    case AwaitCheckNotify(row, word) => next == CheckDone(Announced(row, word)) && act == Some(Notified(word))
    case CheckDone(_) => next == pc && act.None?
  }

  /** The act of an event that says it was done by handler `me` on transaction `id`. */
  predicate IsActOf(event: Option<Event>, me: nat, id: string, act: Option<Act>) {
    match event
    case None => act.None?
    case Some(e) => act.Some? && e == Did(me, id, act.value)
  }

  function ActOf(event: Option<Event>): Option<Act> {
    if event.Some? && event.value.Did? then Some(event.value.act) else None
  }

  predicate Moves(me: nat, h: Handler, next: Handler, event: Option<Event>) {
    match h
    case Callback(partner, payload, since, pc) =>
      && next.Callback? && next.partner == partner && next.payload == payload
      && (!pc.AwaitLock? ==> next.since == since)
      && CallbackMoves(pc, next.cpc, ActOf(event))
      && IsActOf(event, me, h.Id(), ActOf(event))
    case Check(id, pc) =>
      && next.Check? && next.id == id
      && CheckMoves(pc, next.spc, ActOf(event))
      && IsActOf(event, me, id, ActOf(event))
    case Initiate(request, channel, pc) =>
      && next.Initiate? && next.request == request && next.channel == channel
      && (pc.AwaitCreate? <== (event.Some?))
      && (next.ipc.AwaitCreate? ==> pc.AwaitExisting?)
      && (event.Some? ==> event.value.Created? && event.value.who == me && event.value.reference == request.reference)
  }

  function RowsAfter(rows: Table, h: Handler, event: Option<Event>): Table {
    match event
    case Some(Did(_, id, WroteCallback(status, _))) => UpdateWhere(rows, id, CallbackPatch(status))
    case Some(Did(_, id, WroteCheck(status, _))) => UpdateWhere(rows, id, StatusPatch(status))
    case Some(Created(_, _, _)) => if h.Initiate? then Upsert(rows, NewRow(h.request, h.channel)) else rows
    case _ => rows
  }

  function LocksAfter(locks: map<string, Lock>, now: nat, me: nat, key: string, event: Option<Event>): map<string, Lock> {
    match event
    case Some(Did(_, _, Acquired)) => locks[key := Lock(me, now + TTL)]
    case Some(Did(_, _, AcquiredBlindly)) => locks[key := Lock(me, now + TTL)]
    case Some(Did(_, _, Deleted(_))) => locks - {key}
    case _ => locks
  }

  /** What an event did to the table and the locks, and what it found there. */
  predicate Effects(sh: Shared, after: Shared, me: nat, h: Handler, event: Option<Event>) {
    && after.now == sh.now
    && after.rows == RowsAfter(sh.rows, h, event)
    && after.locks == LocksAfter(sh.locks, sh.now, me, h.Key(), event)
    && (ActOf(event) == Some(Acquired) || ActOf(event) == Some(AcquiredBlindly) ==> h.Key() !in sh.locks)
    && (event.Some? && event.value.Did? && event.value.act.Deleted? ==>
          event.value.act.owner == if h.Key() in sh.locks then Some(sh.locks[h.Key()].owner) else None)
    && (event.Some? && event.value.Created? ==>
          event.value.prior == if event.value.reference in sh.rows then Some(sh.rows[event.value.reference]) else None)
  }

  /** The row a handler is carrying. */
  function RowIn(h: Handler): Option<Row> {
    match h
    case Callback(_, _, _, pc) =>
      (match pc
       case AwaitConfig(row) => Some(row)
       case AwaitUpdate(row, _) => Some(row)
       case AwaitPublish(row, _) => Some(row)
       case AwaitNotify(row, _) => Some(row)
       case AwaitRelease(exit) => RowInExit(exit)
       case CallbackDone(exit, _) => RowInExit(exit)
       case _ => None)
    case Check(_, pc) =>
      (match pc
       case AwaitFind => None
       case AwaitQuery(row) => Some(row)
       case AwaitStore(row, _) => Some(row)
       case AwaitCheckPublish(row, _) => Some(row)
       case AwaitCheckNotify(row, _) => Some(row)
       case CheckDone(exit) => if exit.FindFailed? then None else Some(exit.row))
    case Initiate(_, _, _) => None
  }

  function RowInExit(exit: Exit): Option<Row> {
    match exit
    case Missed(row) => Some(row)
    case Duplicate(row) => Some(row)
    case Processed(row, _) => Some(row)
    case _ => None
  }

  /** A carried row is what the lookup by transaction id gave at the moment it was read, and a few values are taken
      from the clock, the payload and the table. */
  ghost predicate ReadsTable(sh: Shared, h: Handler, next: Handler) {
    && (RowIn(next).Some? ==> RowIn(next) == if RowIn(h).Some? then RowIn(h) else FindById(sh.rows, h.Id()))
    && (h.Callback? && h.cpc.AwaitLock? && next.Callback? && next.cpc.AwaitRead? ==> next.since == sh.now)
    && (h.Callback? && h.cpc.AwaitConfig? && next.Callback? && next.cpc.AwaitUpdate? ==>
          next.cpc.status == ExtractStatusFromCallback(h.payload))
    && (h.Initiate? && h.ipc.AwaitExisting? && next.Initiate? && next.ipc.AwaitCreate? ==>
          h.request.reference !in sh.rows)
  }

  ghost predicate Shaped(sh: Shared, me: nat, h: Handler, n: Stepped) {
    && Moves(me, h, n.handler, n.event)
    && Effects(sh, n.shared, me, h, n.event)
    && ReadsTable(sh, h, n.handler)
  }

  lemma LockShape(sh: Shared, me: nat, h: Handler, o: Outcome)
    requires h.Callback? && h.cpc.AwaitLock?
    ensures Shaped(sh, me, h, LockStep(sh, me, h, o))
  {
    hide BuildCallbackLockKey, ExtractTransactionId;
  }

  lemma ReadShape(sh: Shared, me: nat, h: Handler, o: Outcome)
    requires h.Callback? && (h.cpc.AwaitMissRead? || h.cpc.AwaitRead?)
    ensures h.cpc.AwaitMissRead? ==> Shaped(sh, me, h, MissReadStep(sh, me, h, o))
    ensures h.cpc.AwaitRead? ==> Shaped(sh, me, h, ReadStep(sh, me, h, o))
  {
    hide BuildCallbackLockKey, ExtractTransactionId, FindById;
  }

  lemma WriteShape(sh: Shared, me: nat, h: Handler, o: Outcome)
    requires h.Callback? && (h.cpc.AwaitConfig? || h.cpc.AwaitUpdate?)
    ensures h.cpc.AwaitConfig? ==> Shaped(sh, me, h, ConfigStep(sh, me, h, o))
    ensures h.cpc.AwaitUpdate? ==> Shaped(sh, me, h, UpdateStep(sh, me, h, o))
  {
    hide BuildCallbackLockKey, ExtractTransactionId, ExtractStatusFromCallback, UpdateWhere;
  }

  lemma AnnounceShape(sh: Shared, me: nat, h: Handler, o: Outcome)
    requires h.Callback? && (h.cpc.AwaitPublish? || h.cpc.AwaitNotify?)
    ensures h.cpc.AwaitPublish? ==> Shaped(sh, me, h, PublishStep(sh, me, h, o))
    ensures h.cpc.AwaitNotify? ==> Shaped(sh, me, h, NotifyStep(sh, me, h, o))
  {
    hide BuildCallbackLockKey, ExtractTransactionId, RoutingKey;
  }

  lemma ReleaseShape(sh: Shared, me: nat, h: Handler, o: Outcome)
    requires h.Callback? && h.cpc.AwaitRelease?
    ensures Shaped(sh, me, h, ReleaseStep(sh, me, h, o))
  {
    hide BuildCallbackLockKey, ExtractTransactionId;
  }

  lemma CallbackShape(sh: Shared, me: nat, h: Handler, o: Outcome)
    requires h.Callback?
    ensures Shaped(sh, me, h, CallbackStep(sh, me, h, o))
  {
    hide LockStep, MissReadStep, ReadStep, ConfigStep, UpdateStep, PublishStep, NotifyStep, ReleaseStep,
      ExtractTransactionId, BuildCallbackLockKey;
    match h.cpc
    case AwaitLock => LockShape(sh, me, h, o);
    case AwaitMissRead => ReadShape(sh, me, h, o);
    case AwaitRead => ReadShape(sh, me, h, o);
    case AwaitConfig(_) => WriteShape(sh, me, h, o);
    case AwaitUpdate(_, _) => WriteShape(sh, me, h, o);
    case AwaitPublish(_, _) => AnnounceShape(sh, me, h, o);
    case AwaitNotify(_, _) => AnnounceShape(sh, me, h, o);
    case AwaitRelease(_) => ReleaseShape(sh, me, h, o);
    case CallbackDone(_, _) =>
  }

  lemma FindShape(sh: Shared, me: nat, h: Handler, o: Outcome)
    requires h.Check? && (h.spc.AwaitFind? || h.spc.AwaitQuery?)
    ensures h.spc.AwaitFind? ==> Shaped(sh, me, h, FindStep(sh, me, h, o))
    ensures h.spc.AwaitQuery? ==> Shaped(sh, me, h, QueryStep(sh, me, h, o))
  {
    hide FindById;
  }

  lemma StoreShape(sh: Shared, me: nat, h: Handler, o: Outcome)
    requires h.Check? && h.spc.AwaitStore?
    ensures Shaped(sh, me, h, StoreStep(sh, me, h, o))
  {
    hide UpdateWhere;
  }

  lemma CheckShape(sh: Shared, me: nat, h: Handler, o: Outcome)
    requires h.Check?
    ensures Shaped(sh, me, h, CheckStep(sh, me, h, o))
  {
    hide FindStep, QueryStep, StoreStep, RoutingKey, ExtractTransactionId, FindById;
    match h.spc
    case AwaitFind => FindShape(sh, me, h, o);
    case AwaitQuery(_) => FindShape(sh, me, h, o);
    case AwaitStore(_, _) => StoreShape(sh, me, h, o);
    case AwaitCheckPublish(_, _) =>
    case AwaitCheckNotify(_, _) =>
    case CheckDone(_) =>
  }

  /** Every step of every handler is an edge of its control-flow graph with the effects of the event it logs. */
  lemma {:induction false} StepShape(sh: Shared, me: nat, h: Handler, o: Outcome)
    ensures Shaped(sh, me, h, HandlerStep(sh, me, h, o))
  {
    hide CallbackStep, CheckStep, FindById, Upsert, ExtractTransactionId, BuildCallbackLockKey;
    match h
    case Callback(_, _, _, _) => CallbackShape(sh, me, h, o);
    case Check(_, _) => CheckShape(sh, me, h, o);
    case Initiate(_, _, _) =>
  }

  /** The same for a step inside a run, with the step named. */
  lemma ApplyAdvance(s: State, i: nat, o: Outcome) returns (n: Stepped)
    requires Active(s, i)
    ensures Apply(s, Advance(i, o)) ==
            s.(shared := n.shared, handlers := s.handlers[i := n.handler], log := Logged(s.log, n.event))
    ensures n == HandlerStep(s.shared, i, s.handlers[i], o)
    ensures Shaped(s.shared, i, s.handlers[i], n)
  {
    hide HandlerStep, Shaped;
    n := HandlerStep(s.shared, i, s.handlers[i], o);
    StepShape(s.shared, i, s.handlers[i], o);
  }
}
