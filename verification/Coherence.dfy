/** What a handler's snapshot always looks like. */
module Coherence {
  import opened PaymentDomain
  import opened PaymentTable
  import opened World
  import opened Protocol
  import opened ControlFlow

  /** The row was read for this transaction while it was unprocessed. */
  predicate Snapshot(row: Row, id: string) {
    HasId(row, id) && !row.processed
  }

  predicate KeyNeverTaken(exit: Exit) {
    exit.LockFailed? || exit.MissFailed? || exit.Missed?
  }

  predicate CoherentExit(exit: Exit, id: string, reported: string) {
    match exit
    case Missed(row) => HasId(row, id)
    case Duplicate(row) => HasId(row, id) && row.processed
    case UpdateFailed(status, _) => status == reported
    case Processed(row, status) => Snapshot(row, id) && status == reported
    case _ => true
  }

  predicate CoherentCallback(pc: CallbackPc, id: string, reported: string) {
    match pc
    case AwaitLock => true
    case AwaitMissRead => true
    case AwaitRead => true
    case AwaitConfig(row) => Snapshot(row, id)
    case AwaitUpdate(row, status) => Snapshot(row, id) && status == reported
    case AwaitPublish(row, status) => Snapshot(row, id) && status == reported
    case AwaitNotify(row, status) => Snapshot(row, id) && status == reported
    case AwaitRelease(exit) => !KeyNeverTaken(exit) && CoherentExit(exit, id, reported)
    case CallbackDone(exit, release) =>
      (release.NotHeld? <==> KeyNeverTaken(exit)) && CoherentExit(exit, id, reported)
  }

  predicate CoherentCheck(pc: CheckPc, id: string) {
    match pc
    case AwaitFind => true
    case AwaitQuery(row) => HasId(row, id)
    case AwaitStore(row, word) => HasId(row, id) && word != row.status
    case AwaitCheckPublish(row, word) => HasId(row, id) && word != row.status && IsTerminal(word)
    case AwaitCheckNotify(row, word) => HasId(row, id) && word != row.status && IsTerminal(word)
    case CheckDone(exit) =>
      match exit
      case FindFailed(_) => true
      case QueryFailed(row, _) => HasId(row, id)
      case Unchanged(row) => HasId(row, id)
      case StoreFailed(row, word, _) => HasId(row, id) && word != row.status
      case Stored(row, word) => HasId(row, id) && word != row.status && !IsTerminal(word)
      case Announced(row, word) => HasId(row, id) && word != row.status && IsTerminal(word)
  }

  predicate Coherent(h: Handler) {
    match h
    case Callback(_, payload, _, pc) => CoherentCallback(pc, h.Id(), ExtractStatusFromCallback(payload))
    case Check(id, pc) => CoherentCheck(pc, id)
    case Initiate(_, _, _) => true
  }

  lemma CoherentMoves(sh: Shared, me: nat, h: Handler, n: Stepped)
    requires Coherent(h) && Shaped(sh, me, h, n)
    ensures Coherent(n.handler)
  {
    hide Effects, ExtractTransactionId, BuildCallbackLockKey, ExtractStatusFromCallback, IsTerminal;
  }

  ghost predicate AllCoherent(s: State) {
    forall i :: 0 <= i < |s.handlers| ==> Coherent(s.handlers[i])
  }

  lemma CoherentStep(s: State, l: Label)
    requires AllCoherent(s)
    ensures AllCoherent(Apply(s, l))
  {
    hide HandlerStep, Shaped, Coherent;
    match l
    case Spawn(h) => FreshCoherent(h);
    case Advance(i, o) =>
      if Active(s, i) {
        var n := ApplyAdvance(s, i, o);
        CoherentMoves(s.shared, i, s.handlers[i], n);
      }
    case _ =>
  }

  lemma FreshCoherent(h: Handler)
    ensures IsFresh(h) ==> Coherent(h)
  {
  }

  /** In every reachable state every handler's snapshot, outcome and release fit together. */
  lemma {:induction false} CoherentThroughout(labels: seq<Label>)
    ensures AllCoherent(Run(INIT, labels))
    decreases |labels|
  {
    hide Apply;
    if labels != [] {
      CoherentThroughout(labels[..|labels| - 1]);
      CoherentStep(Run(INIT, labels[..|labels| - 1]), labels[|labels| - 1]);
    }
  }
}
