/** The payment protocol: any number of callback handlers, status checks and initiations interleave at their
    awaits over one shared state. A step is one awaited call together with the code that runs up to the next await. */
module Protocol {
  import opened Wrappers
  import opened PaymentDomain
  import opened PaymentTable
  import opened World

  // ---------- Handlers ----------

  datatype Response = Response(transactionId: string, status: string, amount: real, currency: string)

  /** How a callback handler leaves the body of `handleCallback`, before any lock it holds is released. */
  datatype Exit =
    | LockFailed(stray: bool)
    | MissFailed(error: Error)
    | Missed(row: Row)
    | ReadFailed(error: Error)
    | Duplicate(row: Row)
    | ConfigFailed(error: Error)
    | UpdateFailed(status: string, applied: bool)
    | Processed(row: Row, status: string)

  /** What the `finally` block did. */
  datatype Release =
    | NotHeld
    | Freed(owner: Option<nat>)
    | FreedThrew(owner: Option<nat>)
    | StuckThrew

  datatype CallbackPc =
    | AwaitLock
    | AwaitMissRead
    | AwaitRead
    | AwaitConfig(row: Row)
    | AwaitUpdate(row: Row, status: string)
    | AwaitPublish(row: Row, status: string)
    | AwaitNotify(row: Row, status: string)
    | AwaitRelease(exit: Exit)
    | CallbackDone(exit: Exit, release: Release)

  datatype CheckExit =
    | FindFailed(error: Error)
    | QueryFailed(row: Row, error: Error)
    | Unchanged(row: Row)
    | StoreFailed(row: Row, word: string, applied: bool)
    | Stored(row: Row, word: string)
    | Announced(row: Row, word: string)

  datatype CheckPc =
    | AwaitFind
    | AwaitQuery(row: Row)
    | AwaitStore(row: Row, word: string)
    | AwaitCheckPublish(row: Row, word: string)
    | AwaitCheckNotify(row: Row, word: string)
    | CheckDone(exit: CheckExit)

  datatype InitiateExit =
    | LookupFailed
    | RejectedDuplicate
    | CreateFailed
    | EnqueueFailed
    | Accepted

  datatype InitiatePc =
    | AwaitExisting
    | AwaitCreate
    | AwaitEnqueue
    | InitiateDone(exit: InitiateExit)

  datatype Handler =
    | Callback(partner: string, payload: WebhookPayload, since: nat, cpc: CallbackPc)
    | Check(id: string, spc: CheckPc)
    | Initiate(request: Request, channel: string, ipc: InitiatePc)
  {
    /** The transaction the handler works on. */
    function Id(): string {
      match this
      case Callback(_, payload, _, _) => ExtractTransactionId(payload).GetOr("")
      case Check(id, _) => id
      case Initiate(_, _, _) => ""
    }

    function Key(): string {
      if Callback? then BuildCallbackLockKey(partner, Id()) else ""
    }

    predicate Done() {
      match this
      case Callback(_, _, _, pc) => pc.CallbackDone?
      case Check(_, pc) => pc.CheckDone?
      case Initiate(_, _, pc) => pc.InitiateDone?
    }

    /** The handler has set the lock key and has not yet deleted it. */
    predicate Holds() {
      Callback? && (cpc.AwaitRead? || cpc.AwaitConfig? || cpc.AwaitUpdate? || cpc.AwaitPublish? ||
                    cpc.AwaitNotify? || cpc.AwaitRelease?)
    }
  }

  function NewCallback(partner: string, payload: WebhookPayload): Handler {
    Callback(partner, payload, 0, AwaitLock)
  }

  function NewCheck(id: string): Handler {
    Check(id, AwaitFind)
  }

  function NewInitiate(request: Request, channel: string): Handler {
    Initiate(request, channel, AwaitExisting)
  }

  predicate IsFresh(h: Handler) {
    match h
    case Callback(partner, payload, _, _) => ExtractTransactionId(payload).Some? && h == NewCallback(partner, payload)
    case Check(id, _) => h == NewCheck(id)
    case Initiate(request, channel, _) => h == NewInitiate(request, channel)
  }

  /** The response made of the row as it was read. */
  function RowResponse(id: string, row: Row): Response {
    Response(id, row.status, row.amount, row.currency)
  }

  /** The value or error `handleCallback` gives its caller. */
  function CallbackResult(id: string, exit: Exit, release: Release): Result<Response, Error> {
    if release.FreedThrew? || release.StuckThrew? then Failure(Unavailable)
    else
      match exit
      case LockFailed(_) => Failure(Unavailable)
      case MissFailed(error) => Failure(error)
      case Missed(row) => Success(RowResponse(id, row))
      case ReadFailed(error) => Failure(error)
      case Duplicate(row) => Success(RowResponse(id, row))
      case ConfigFailed(error) => Failure(error)
      case UpdateFailed(_, _) => Failure(Unavailable)
      case Processed(row, status) => Success(Response(id, status, row.amount, row.currency))
  }

  function CheckResult(id: string, exit: CheckExit): Result<Response, Error> {
    match exit
    case FindFailed(error) => Failure(error)
    case QueryFailed(_, error) => Failure(error)
    case Unchanged(row) => Success(RowResponse(id, row))
    case StoreFailed(_, _, _) => Failure(Unavailable)
    case Stored(row, word) => Success(Response(id, word, row.amount, row.currency))
    case Announced(row, word) => Success(Response(id, word, row.amount, row.currency))
  }

  function InitiateResult(request: Request, exit: InitiateExit): Result<Response, Error> {
    match exit
    case LookupFailed => Failure(Unavailable)
    case RejectedDuplicate => Failure(DuplicateTransactionAttempt)
    case CreateFailed => Failure(Unavailable)
    case EnqueueFailed => Failure(Unavailable)
    case Accepted => Success(Response("", PENDING, request.amount, request.currency))
  }

  /** What the caller of a finished handler gets. */
  function ResultOf(h: Handler): Result<Response, Error>
    requires h.Done()
  {
    match h
    case Callback(_, _, _, pc) => CallbackResult(h.Id(), pc.exit, pc.release)
    case Check(id, pc) => CheckResult(id, pc.exit)
    case Initiate(request, _, pc) => InitiateResult(request, pc.exit)
  }

  // ---------- History ----------

  /** What a callback handler or a status check did, in the order it did it. */
  datatype Act =
    | Acquired
    | AcquiredBlindly
    | ReadUnprocessed
    | Validated
    | WroteCallback(status: string, acknowledged: bool)
    | ReadForCheck(status: string)
    | WroteCheck(status: string, acknowledged: bool)
    | PublishedCallback(status: string)
    | PublishedCheck(status: string)
    | Notified(status: string)
    | Deleted(owner: Option<nat>)

  datatype Event =
    | Did(who: nat, id: string, act: Act)
    | Created(who: nat, reference: string, prior: Option<Row>)
    | Expired(key: string)

  datatype Stepped = Stepped(shared: Shared, handler: Handler, event: Option<Event>)

  // ---------- One step of a callback handler ----------

  function CountFailed(m: Metrics): Metrics {
    m.(failed := m.failed + 1)
  }

  predicate ExitThrows(exit: Exit) {
    exit.LockFailed? || exit.MissFailed? || exit.ReadFailed? || exit.ConfigFailed? || exit.UpdateFailed?
  }

  ghost function LockStep(sh: Shared, me: nat, h: Handler, o: Outcome): Stepped
    requires h.Callback?
  {
    var key := h.Key();
    var free := key !in sh.locks;
    var taken := sh.(locks := sh.locks[key := Lock(me, sh.now + TTL)]);
    if o.Throws? then
      var stray := free && o.applied;
      var after := if stray then taken else sh;
      Stepped(after.(metrics := CountFailed(sh.metrics)), h.(cpc := CallbackDone(LockFailed(stray), NotHeld)),
              if stray then Some(Did(me, h.Id(), AcquiredBlindly)) else None)
    else if free then
      Stepped(taken, h.(since := sh.now, cpc := AwaitRead), Some(Did(me, h.Id(), Acquired)))
    else
      Stepped(sh, h.(cpc := AwaitMissRead), None)
  }

  ghost function MissReadStep(sh: Shared, me: nat, h: Handler, o: Outcome): Stepped
    requires h.Callback?
  {
    var failed := sh.(metrics := CountFailed(sh.metrics));
    if o.Throws? then
      Stepped(failed, h.(cpc := CallbackDone(MissFailed(Unavailable), NotHeld)), None)
    else
      match FindById(sh.rows, h.Id())
      case None => Stepped(failed, h.(cpc := CallbackDone(MissFailed(TransactionNotFound), NotHeld)), None)
      case Some(row) => Stepped(sh, h.(cpc := CallbackDone(Missed(row), NotHeld)), None)
  }

  ghost function ReadStep(sh: Shared, me: nat, h: Handler, o: Outcome): Stepped
    requires h.Callback?
  {
    if o.Throws? then
      Stepped(sh, h.(cpc := AwaitRelease(ReadFailed(Unavailable))), None)
    else
      match FindById(sh.rows, h.Id())
      case None => Stepped(sh, h.(cpc := AwaitRelease(ReadFailed(TransactionNotFound))), None)
      case Some(row) =>
        var counted := sh.(metrics := sh.metrics.(received := sh.metrics.received + 1));
        if row.processed
        then Stepped(counted, h.(cpc := AwaitRelease(Duplicate(row))), None)
        else Stepped(counted, h.(cpc := AwaitConfig(row)), Some(Did(me, h.Id(), ReadUnprocessed)))
  }

  /** `loadConfig`, then the signature comparison, then the payload's status. */
  function ConfigStep(sh: Shared, me: nat, h: Handler, o: Outcome): Stepped
    requires h.Callback? && h.cpc.AwaitConfig?
  {
    if o.Ok? then
      Stepped(sh, h.(cpc := AwaitUpdate(h.cpc.row, ExtractStatusFromCallback(h.payload))), Some(Did(me, h.Id(), Validated)))
    else
      Stepped(sh, h.(cpc := AwaitRelease(ConfigFailed(if o.Rejected? then InvalidCallbackSignature else Unavailable))), None)
  }

  function UpdateStep(sh: Shared, me: nat, h: Handler, o: Outcome): Stepped
    requires h.Callback? && h.cpc.AwaitUpdate?
  {
    var AwaitUpdate(row, status) := h.cpc;
    var written := sh.(rows := UpdateWhere(sh.rows, h.Id(), CallbackPatch(status)));
    Stepped(if o.TakesEffect() then written else sh,
            h.(cpc := if o.Throws? then AwaitRelease(UpdateFailed(status, o.applied)) else AwaitPublish(row, status)),
            if o.TakesEffect() then Some(Did(me, h.Id(), WroteCallback(status, !o.Throws?))) else None)
  }

  function PublishStep(sh: Shared, me: nat, h: Handler, o: Outcome): Stepped
    requires h.Callback? && h.cpc.AwaitPublish?
  {
    var AwaitPublish(row, status) := h.cpc;
    Stepped(sh.(broker := sh.broker + [AttemptFor(row, status, o.Ok?)]), h.(cpc := AwaitNotify(row, status)),
            Some(Did(me, h.Id(), PublishedCallback(status))))
  }

  function NotifyStep(sh: Shared, me: nat, h: Handler, o: Outcome): Stepped
    requires h.Callback? && h.cpc.AwaitNotify?
  {
    var AwaitNotify(row, status) := h.cpc;
    var m := sh.metrics;
    Stepped(sh.(notices := sh.notices + [NoticeFor(row, status, o.Ok?)],
                metrics := m.(processed := m.processed + 1,
                              succeeded := m.succeeded + if status == COMPLETED then 1 else 0)),
            h.(cpc := AwaitRelease(Processed(row, status))),
            Some(Did(me, h.Id(), Notified(status))))
  }

  /** The unconditional `DEL` of the `finally` block. */
  function ReleaseStep(sh: Shared, me: nat, h: Handler, o: Outcome): Stepped
    requires h.Callback? && h.cpc.AwaitRelease?
  {
    var key := h.Key();
    var exit := h.cpc.exit;
    var owner := if key in sh.locks then Some(sh.locks[key].owner) else None;
    var freed := if o.TakesEffect() then sh.(locks := sh.locks - {key}) else sh;
    Stepped(if o.Throws? || ExitThrows(exit) then freed.(metrics := CountFailed(sh.metrics)) else freed,
            h.(cpc := CallbackDone(exit, if !o.TakesEffect() then StuckThrew
                                         else if o.Throws? then FreedThrew(owner) else Freed(owner))),
            if o.TakesEffect() then Some(Did(me, h.Id(), Deleted(owner))) else None)
  }

  ghost function CallbackStep(sh: Shared, me: nat, h: Handler, o: Outcome): (s: Stepped)
    requires h.Callback?
    ensures s.handler.Callback? && s.handler.partner == h.partner && s.handler.payload == h.payload
  {
    match h.cpc
    case AwaitLock => LockStep(sh, me, h, o)
    case AwaitMissRead => MissReadStep(sh, me, h, o)
    case AwaitRead => ReadStep(sh, me, h, o)
    case AwaitConfig(_) => ConfigStep(sh, me, h, o)
    case AwaitUpdate(_, _) => UpdateStep(sh, me, h, o)
    case AwaitPublish(_, _) => PublishStep(sh, me, h, o)
    case AwaitNotify(_, _) => NotifyStep(sh, me, h, o)
    case AwaitRelease(_) => ReleaseStep(sh, me, h, o)
    case CallbackDone(_, _) => Stepped(sh, h, None)
  }

  // ---------- One step of a status check ----------

  ghost function FindStep(sh: Shared, me: nat, h: Handler, o: Outcome): Stepped
    requires h.Check?
  {
    if o.Throws? then Stepped(sh, h.(spc := CheckDone(FindFailed(Unavailable))), None)
    else
      match FindById(sh.rows, h.id)
      case None => Stepped(sh, h.(spc := CheckDone(FindFailed(TransactionNotFound))), None)
      case Some(row) => Stepped(sh, h.(spc := AwaitQuery(row)), Some(Did(me, h.id, ReadForCheck(row.status))))
  }

  function QueryStep(sh: Shared, me: nat, h: Handler, o: Outcome): Stepped
    requires h.Check? && h.spc.AwaitQuery?
  {
    var row := h.spc.row;
    if !o.Answer? then Stepped(sh, h.(spc := CheckDone(QueryFailed(row, Unavailable))), None)
    else
      match o.word
      case None => Stepped(sh, h.(spc := CheckDone(QueryFailed(row, UnknownPaymentStatus))), None)
      case Some(word) =>
        Stepped(sh, h.(spc := if word != row.status then AwaitStore(row, word) else CheckDone(Unchanged(row))), None)
  }

  function StoreStep(sh: Shared, me: nat, h: Handler, o: Outcome): Stepped
    requires h.Check? && h.spc.AwaitStore?
  {
    var AwaitStore(row, word) := h.spc;
    var written := sh.(rows := UpdateWhere(sh.rows, h.id, StatusPatch(word)));
    Stepped(if o.TakesEffect() then written else sh,
            h.(spc := if o.Throws? then CheckDone(StoreFailed(row, word, o.applied))
                      else if IsTerminal(word) then AwaitCheckPublish(row, word)
                      else CheckDone(Stored(row, word))),
            if o.TakesEffect() then Some(Did(me, h.id, WroteCheck(word, !o.Throws?))) else None)
  }

  ghost function CheckStep(sh: Shared, me: nat, h: Handler, o: Outcome): (s: Stepped)
    requires h.Check?
    ensures s.handler.Check? && s.handler.id == h.id
  {
    match h.spc
    case AwaitFind => FindStep(sh, me, h, o)
    case AwaitQuery(_) => QueryStep(sh, me, h, o)
    case AwaitStore(_, _) => StoreStep(sh, me, h, o)
    case AwaitCheckPublish(row, word) =>
      Stepped(sh.(broker := sh.broker + [AttemptFor(row, word, o.Ok?)]), h.(spc := AwaitCheckNotify(row, word)),
              Some(Did(me, h.id, PublishedCheck(word))))
    case AwaitCheckNotify(row, word) =>
      Stepped(sh.(notices := sh.notices + [NoticeFor(row, word, o.Ok?)]), h.(spc := CheckDone(Announced(row, word))),
              Some(Did(me, h.id, Notified(word))))
    case CheckDone(_) => Stepped(sh, h, None)
  }

  // ---------- One step of an initiation ----------

  function InitiateStep(sh: Shared, me: nat, h: Handler, o: Outcome): (s: Stepped)
    requires h.Initiate?
    ensures s.handler.Initiate? && s.handler.request == h.request && s.handler.channel == h.channel
  {
    var reference := h.request.reference;
    match h.ipc
    case AwaitExisting =>
      Stepped(sh, h.(ipc := if o.Throws? then InitiateDone(LookupFailed)
                            else if reference in sh.rows then InitiateDone(RejectedDuplicate)
                            else AwaitCreate), None)
    case AwaitCreate =>
      var prior := if reference in sh.rows then Some(sh.rows[reference]) else None;
      Stepped(if o.TakesEffect() then sh.(rows := Upsert(sh.rows, NewRow(h.request, h.channel))) else sh,
              h.(ipc := if o.Throws? then InitiateDone(CreateFailed) else AwaitEnqueue),
              if o.TakesEffect() then Some(Created(me, reference, prior)) else None)
    case AwaitEnqueue =>
      Stepped(if o.TakesEffect() then sh.(jobs := sh.jobs + [reference]) else sh,
              h.(ipc := InitiateDone(if o.Throws? then EnqueueFailed else Accepted)), None)
    case InitiateDone(_) => Stepped(sh, h, None)
  }

  ghost function HandlerStep(sh: Shared, me: nat, h: Handler, o: Outcome): Stepped {
    match h
    case Callback(_, _, _, _) => CallbackStep(sh, me, h, o)
    case Check(_, _) => CheckStep(sh, me, h, o)
    case Initiate(_, _, _) => InitiateStep(sh, me, h, o)
  }

  // ---------- Runs ----------

  /** `settled` is the payment hub's own record of the transactions it has finished, and how. */
  datatype State = State(
    shared: Shared,
    handlers: seq<Handler>,
    crashed: set<nat>,
    settled: map<string, string>,
    log: seq<Event>)

  datatype Label =
    | Spawn(handler: Handler)
    | Advance(who: nat, outcome: Outcome)
    | Crash(who: nat)
    | Tick
    | Expire(key: string)
    | BindId(reference: string, id: string)
    | Settle(id: string, word: string)

  const NO_METRICS := Metrics(0, 0, 0, 0, 0)

  const INIT := State(Shared(map[], map[], 0, [], [], [], NO_METRICS), [], {}, map[], [])

  /** `initiate` counts itself before its first await. */
  function CountSpawn(m: Metrics, h: Handler): Metrics {
    if h.Initiate? then m.(initiated := m.initiated + 1) else m
  }

  function Logged(log: seq<Event>, event: Option<Event>): seq<Event> {
    if event.Some? then log + [event.value] else log
  }

  /** Handler `i` exists, has not crashed and has not finished. */
  predicate Active(s: State, i: nat) {
    i < |s.handlers| && i !in s.crashed && !s.handlers[i].Done()
  }

  /** One label. A label that is not enabled changes nothing, so every sequence of labels is a run. */
  ghost function Apply(s: State, l: Label): State {
    match l
    case Spawn(h) =>
      if IsFresh(h)
      then s.(shared := s.shared.(metrics := CountSpawn(s.shared.metrics, h)), handlers := s.handlers + [h])
      else s
    case Advance(i, o) =>
      if Active(s, i) then
        var n := HandlerStep(s.shared, i, s.handlers[i], o);
        s.(shared := n.shared, handlers := s.handlers[i := n.handler], log := Logged(s.log, n.event))
      else s
    case Crash(i) => s.(crashed := s.crashed + {i})
    case Tick =>
      // A key cannot outlive its deadline: time stands still until it has expired.
      if forall k :: k in s.shared.locks ==> s.shared.now < s.shared.locks[k].deadline
      then s.(shared := s.shared.(now := s.shared.now + 1))
      else s
    case Expire(key) =>
      if key in s.shared.locks && s.shared.locks[key].deadline <= s.shared.now
      then s.(shared := s.shared.(locks := s.shared.locks - {key}), log := s.log + [Expired(key)])
      else s
    case BindId(reference, id) =>
      if reference in s.shared.rows && s.shared.rows[reference].transactionId.None? && FindById(s.shared.rows, id).None?
      then s.(shared := s.shared.(rows := Bind(s.shared.rows, reference, id)))
      else s
    case Settle(id, word) =>
      if id !in s.settled && IsTerminal(word) then s.(settled := s.settled[id := word]) else s
  }

  ghost function Run(s: State, labels: seq<Label>): State
    decreases |labels|
  {
    if labels == [] then s else Apply(Run(s, labels[..|labels| - 1]), labels[|labels| - 1])
  }

  lemma {:induction false} RunConcat(s: State, a: seq<Label>, b: seq<Label>)
    ensures Run(s, a + b) == Run(Run(s, a), b)
    decreases |b|
  {
    if b == [] {
      assert a + b == a;
    } else {
      assert (a + b)[..|a + b| - 1] == a + b[..|b| - 1];
      RunConcat(s, a, b[..|b| - 1]);
    }
  }
}
