/** The webhook counters: every callback that starts is booked, exactly where the source counts it. */
module WebhookBooks {
  import opened Wrappers
  import opened PaymentDomain
  import opened PaymentTable
  import opened World
  import opened Protocol
  import opened ControlFlow

  function Plus(a: Metrics, b: Metrics): Metrics {
    Metrics(a.initiated + b.initiated, a.received + b.received, a.processed + b.processed,
            a.succeeded + b.succeeded, a.failed + b.failed)
  }

  const INITIATED: Metrics := Metrics(1, 0, 0, 0, 0)
  const RECEIVED := Metrics(0, 1, 0, 0, 0)

  function Concluded(status: string): Metrics {
    Metrics(0, 1, 1, if status == COMPLETED then 1 else 0, 0)
  }

  function ExitBook(exit: Exit): Metrics {
    match exit
    case Duplicate(_) => RECEIVED
    case ConfigFailed(_) => RECEIVED
    case UpdateFailed(_, _) => RECEIVED
    case Processed(_, status) => Concluded(status)
    case _ => NO_METRICS
  }

  predicate EndsThrowing(exit: Exit, release: Release) {
    release.FreedThrew? || release.StuckThrew? || ExitThrows(exit)
  }

  /** The `catch` block counts exactly the callbacks whose caller gets an error. */
  lemma EndsThrowingIsFailure(id: string, exit: Exit, release: Release)
    ensures EndsThrowing(exit, release) <==> CallbackResult(id, exit, release).Failure?
  {
  }

  /** The increments a handler has made by its program counter. */
  function BookOf(h: Handler): Metrics {
    match h
    case Callback(_, _, _, pc) =>
      (match pc
       case AwaitLock => NO_METRICS
       case AwaitMissRead => NO_METRICS
       case AwaitRead => NO_METRICS
       case AwaitConfig(_) => RECEIVED
       case AwaitUpdate(_, _) => RECEIVED
       case AwaitPublish(_, _) => RECEIVED
       case AwaitNotify(_, _) => RECEIVED
       case AwaitRelease(exit) => ExitBook(exit)
       case CallbackDone(exit, release) =>
         if EndsThrowing(exit, release) then ExitBook(exit).(failed := 1) else ExitBook(exit))
    case Check(_, _) => NO_METRICS
    case Initiate(_, _, _) => INITIATED
  }

  function TotalBook(hs: seq<Handler>): Metrics
    decreases |hs|
  {
    if hs == [] then NO_METRICS else Plus(TotalBook(hs[..|hs| - 1]), BookOf(hs[|hs| - 1]))
  }

  /** One step moves the counters by as much as it moves the handler's book. */
  predicate StepBooked(sh: Shared, h: Handler, n: Stepped) {
    Plus(n.shared.metrics, BookOf(h)) == Plus(sh.metrics, BookOf(n.handler))
  }

  lemma LockBooked(sh: Shared, me: nat, h: Handler, o: Outcome)
    requires h.Callback? && h.cpc.AwaitLock?
    ensures StepBooked(sh, h, LockStep(sh, me, h, o))
  {
    hide ExtractTransactionId, BuildCallbackLockKey;
  }

  lemma ReadBooked(sh: Shared, me: nat, h: Handler, o: Outcome)
    requires h.Callback? && (h.cpc.AwaitMissRead? || h.cpc.AwaitRead?)
    ensures h.cpc.AwaitMissRead? ==> StepBooked(sh, h, MissReadStep(sh, me, h, o))
    ensures h.cpc.AwaitRead? ==> StepBooked(sh, h, ReadStep(sh, me, h, o))
  {
    hide ExtractTransactionId, BuildCallbackLockKey, FindById;
  }

  lemma WriteBooked(sh: Shared, me: nat, h: Handler, o: Outcome)
    requires h.Callback? && (h.cpc.AwaitConfig? || h.cpc.AwaitUpdate?)
    ensures h.cpc.AwaitConfig? ==> StepBooked(sh, h, ConfigStep(sh, me, h, o))
    ensures h.cpc.AwaitUpdate? ==> StepBooked(sh, h, UpdateStep(sh, me, h, o))
  {
    hide ExtractTransactionId, BuildCallbackLockKey, UpdateWhere, ExtractStatusFromCallback;
  }

  lemma AnnounceBooked(sh: Shared, me: nat, h: Handler, o: Outcome)
    requires h.Callback? && (h.cpc.AwaitPublish? || h.cpc.AwaitNotify?)
    ensures h.cpc.AwaitPublish? ==> StepBooked(sh, h, PublishStep(sh, me, h, o))
    ensures h.cpc.AwaitNotify? ==> StepBooked(sh, h, NotifyStep(sh, me, h, o))
  {
    hide ExtractTransactionId, BuildCallbackLockKey, RoutingKey;
  }

  lemma ReleaseBooked(sh: Shared, me: nat, h: Handler, o: Outcome)
    requires h.Callback? && h.cpc.AwaitRelease?
    ensures StepBooked(sh, h, ReleaseStep(sh, me, h, o))
  {
    hide ExtractTransactionId, BuildCallbackLockKey;
  }

  lemma CallbackBooked(sh: Shared, me: nat, h: Handler, o: Outcome)
    requires h.Callback? && !h.Done()
    ensures StepBooked(sh, h, CallbackStep(sh, me, h, o))
  {
    hide LockStep, MissReadStep, ReadStep, ConfigStep, UpdateStep, PublishStep, NotifyStep, ReleaseStep, StepBooked,
      ExtractTransactionId, BuildCallbackLockKey;
    match h.cpc
    case AwaitLock => LockBooked(sh, me, h, o);
    case AwaitMissRead => ReadBooked(sh, me, h, o);
    case AwaitRead => ReadBooked(sh, me, h, o);
    case AwaitConfig(_) => WriteBooked(sh, me, h, o);
    case AwaitUpdate(_, _) => WriteBooked(sh, me, h, o);
    case AwaitPublish(_, _) => AnnounceBooked(sh, me, h, o);
    case AwaitNotify(_, _) => AnnounceBooked(sh, me, h, o);
    case AwaitRelease(_) => ReleaseBooked(sh, me, h, o);
  }

  lemma OthersBooked(sh: Shared, me: nat, h: Handler, o: Outcome)
    requires !h.Callback?
    ensures StepBooked(sh, h, HandlerStep(sh, me, h, o))
  {
    hide FindById, UpdateWhere, Upsert, RoutingKey, IsTerminal;
  }

  lemma StepIsBooked(sh: Shared, me: nat, h: Handler, o: Outcome)
    requires !h.Done()
    ensures StepBooked(sh, h, HandlerStep(sh, me, h, o))
  {
    hide CallbackStep, CheckStep, InitiateStep, StepBooked;
    if h.Callback? {
      CallbackBooked(sh, me, h, o);
    } else {
      OthersBooked(sh, me, h, o);
    }
  }

  lemma {:induction false} TotalUpdate(hs: seq<Handler>, i: nat, h: Handler)
    requires i < |hs|
    ensures Plus(TotalBook(hs[i := h]), BookOf(hs[i])) == Plus(TotalBook(hs), BookOf(h))
    decreases |hs|
  {
    hide BookOf;
    var n := |hs| - 1;
    if i == n {
      assert hs[i := h][..n] == hs[..n];
    } else {
      assert hs[i := h][..n] == hs[..n][i := h];
      TotalUpdate(hs[..n], i, h);
    }
  }

  lemma FreshBook(h: Handler)
    requires IsFresh(h)
    ensures BookOf(h) == if h.Initiate? then INITIATED else NO_METRICS
  {
    hide ExtractTransactionId;
  }

  lemma BooksSpawn(hs: seq<Handler>, h: Handler)
    requires BookOf(h) == if h.Initiate? then INITIATED else NO_METRICS
    ensures CountSpawn(TotalBook(hs), h) == TotalBook(hs + [h])
  {
    hide BookOf, TotalBook;
    TotalAppend(hs, h);
  }

  lemma TotalAppend(hs: seq<Handler>, h: Handler)
    ensures TotalBook(hs + [h]) == Plus(TotalBook(hs), BookOf(h))
  {
    hide BookOf;
    assert (hs + [h])[..|hs|] == hs;
  }

  lemma BooksStep(s: State, l: Label)
    requires s.shared.metrics == TotalBook(s.handlers)
    ensures Apply(s, l).shared.metrics == TotalBook(Apply(s, l).handlers)
  {
    hide HandlerStep, Shaped, BookOf, IsFresh, Bind, FindById, TotalBook;
    match l
    case Spawn(h) =>
      if IsFresh(h) {
        FreshBook(h);
        BooksSpawn(s.handlers, h);
      }
    case Advance(i, o) =>
      if Active(s, i) {
        var n := ApplyAdvance(s, i, o);
        StepIsBooked(s.shared, i, s.handlers[i], o);
        TotalUpdate(s.handlers, i, n.handler);
      }
    case _ =>
  }

  /** In every reachable state the counters hold exactly the increments of the handlers' program text so far. */
  lemma {:induction false} BooksMatchThroughout(labels: seq<Label>)
    ensures Run(INIT, labels).shared.metrics == TotalBook(Run(INIT, labels).handlers)
    decreases |labels|
  {
    if labels != [] {
      hide Apply;
      BooksMatchThroughout(labels[..|labels| - 1]);
      BooksStep(Run(INIT, labels[..|labels| - 1]), labels[|labels| - 1]);
    }
  }

  // ---------- Where the callbacks are ----------

  datatype Places = Places(
    started: nat,
    returnedMiss: nat,
    returnedDuplicate: nat,
    releaseThrew: nat,
    unfinished: nat,
    foundDuplicate: nat,
    failedAfterReceipt: nat,
    working: nat)

  const NOWHERE := Places(0, 0, 0, 0, 0, 0, 0, 0)

  function One(b: bool): nat {
    if b then 1 else 0
  }

  /** `unfinished` handlers have not returned and not been counted as processed; `working` ones are between their
      counted receipt and the end of the body; `releaseThrew` ones lost a good outcome to a failing `DEL`. */
  function PlaceOf(h: Handler): Places {
    match h
    case Callback(_, _, _, pc) =>
      var exit := if pc.AwaitRelease? then Some(pc.exit) else if pc.CallbackDone? then Some(pc.exit) else None;
      Places(
        1,
        One(pc.CallbackDone? && pc.exit.Missed?),
        One(pc.CallbackDone? && pc.exit.Duplicate?),
        One(pc.CallbackDone? && (pc.release.FreedThrew? || pc.release.StuckThrew?) && !ExitThrows(pc.exit)),
        One(!pc.CallbackDone? && !(pc.AwaitRelease? && pc.exit.Processed?)),
        One(exit.Some? && exit.value.Duplicate?),
        One(exit.Some? && (exit.value.ConfigFailed? || exit.value.UpdateFailed?)),
        One(pc.AwaitConfig? || pc.AwaitUpdate? || pc.AwaitPublish? || pc.AwaitNotify?))
    case _ => NOWHERE
  }

  function PlusPlaces(a: Places, b: Places): Places {
    Places(a.started + b.started, a.returnedMiss + b.returnedMiss, a.returnedDuplicate + b.returnedDuplicate,
           a.releaseThrew + b.releaseThrew, a.unfinished + b.unfinished, a.foundDuplicate + b.foundDuplicate,
           a.failedAfterReceipt + b.failedAfterReceipt, a.working + b.working)
  }

  function TotalPlaces(hs: seq<Handler>): Places
    decreases |hs|
  {
    if hs == [] then NOWHERE else PlusPlaces(TotalPlaces(hs[..|hs| - 1]), PlaceOf(hs[|hs| - 1]))
  }

  predicate Balanced(p: Places, m: Metrics) {
    && p.started + p.releaseThrew == p.returnedMiss + p.returnedDuplicate + m.processed + m.failed + p.unfinished
    && m.received == m.processed + p.foundDuplicate + p.failedAfterReceipt + p.working
    && m.succeeded <= m.processed
  }

  lemma HandlerBalanced(h: Handler)
    ensures Balanced(PlaceOf(h), BookOf(h))
  {
  }

  lemma {:induction false} TotalsBalanced(hs: seq<Handler>)
    ensures Balanced(TotalPlaces(hs), TotalBook(hs))
    decreases |hs|
  {
    hide PlaceOf, BookOf;
    if hs != [] {
      TotalsBalanced(hs[..|hs| - 1]);
      HandlerBalanced(hs[|hs| - 1]);
    }
  }

  /** Callback accounting over every interleaving: each callback that started has returned on a lock miss, returned as
      a duplicate, been counted processed, been counted failed, or is unfinished; each counted receipt ended as
      processed, as a duplicate, as a failure after receipt, or is being worked on. A handler whose good outcome was
      lost to a failing `DEL` is in the books twice. */
  lemma CallbacksAreAccountedFor(labels: seq<Label>)
    ensures var s := Run(INIT, labels);
            Balanced(TotalPlaces(s.handlers), s.shared.metrics)
  {
    hide Run, Balanced, TotalPlaces, TotalBook;
    BooksMatchThroughout(labels);
    TotalsBalanced(Run(INIT, labels).handlers);
  }
}
