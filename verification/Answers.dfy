/** What the three operations answer when nothing interleaves, said once more without the protocol: by what the table and
    the lock held at the start, what the webhook body said, and how each await ended. */
module Answers {
  import opened Wrappers
  import opened PaymentDomain
  import opened PaymentTable
  import opened World
  import opened Protocol
  import opened SoleRuns

  type Answer = Result<Response, Error>

  /** The row's own status, amount and currency. */
  function AsStored(id: string, row: Row): Answer {
    Success(Response(id, row.status, row.amount, row.currency))
  }

  function AnswerToInitiation(request: Request, taken: bool, env: Env): Answer
    requires env.InitiateEnv?
  {
    if env.lookup.Throws? then Failure(Unavailable)
    else if taken then Failure(DuplicateTransactionAttempt)
    else if env.create.Throws? || env.enqueue.Throws? then Failure(Unavailable)
    else Success(Response("", "pending", request.amount, request.currency))
  }

  function AnswerToCheck(found: Option<Row>, id: string, env: Env): Answer
    requires env.CheckEnv?
  {
    if env.find.Throws? then Failure(Unavailable)
    else if found.None? then Failure(TransactionNotFound)
    else if !env.query.Answer? then Failure(Unavailable)
    else if env.query.word.None? then Failure(UnknownPaymentStatus)
    else if env.query.word.value != found.value.status && env.store.Throws? then Failure(Unavailable)
    else Success(Response(id, env.query.word.value, found.value.amount, found.value.currency))
  }

  /** The lock was held by somebody else. */
  function AnswerToMiss(found: Option<Row>, id: string, env: Env): Answer
    requires env.CallbackEnv?
  {
    if env.missRead.Throws? then Failure(Unavailable)
    else if found.None? then Failure(TransactionNotFound)
    else AsStored(id, found.value)
  }

  /** The lock was free. */
  function AnswerUnderLock(found: Option<Row>, id: string, status: string, env: Env): Answer
    requires env.CallbackEnv?
  {
    if env.release.Throws? || env.read.Throws? then Failure(Unavailable)
    else if found.None? then Failure(TransactionNotFound)
    else if found.value.processed then AsStored(id, found.value)
    else if env.config.Rejected? then Failure(InvalidCallbackSignature)
    else if !env.config.Ok? || env.update.Throws? then Failure(Unavailable)
    else Success(Response(id, status, found.value.amount, found.value.currency))
  }

  ghost function AnswerToCallback(rows: Table, locks: map<string, Lock>, partner: string, id: string, status: string, env: Env)
    : Answer
    requires env.CallbackEnv?
  {
    if env.lock.Throws? then Failure(Unavailable)
    else if "callback:" + partner + ":" + id in locks then AnswerToMiss(FindById(rows, id), id, env)
    else AnswerUnderLock(FindById(rows, id), id, status, env)
  }

  // ---------- The protocol's handlers answer so ----------

  lemma CheckAnswers(sh: Shared, me: nat, id: string, env: Env)
    requires env.CheckEnv?
    ensures ResultOf(Finish(sh, me, NewCheck(id), env).handler) == AnswerToCheck(FindById(sh.rows, id), id, env)
  {
    hide Finish, FindById, StoreStep;
    var n := FindStep(sh, me, NewCheck(id), env.find);
    TakeCheckStep(sh, me, NewCheck(id), env, n);
    NothingLeft(n.shared, me, n.handler, env);
    if n.handler.spc.AwaitQuery? {
      var n2 := QueryStep(n.shared, me, n.handler, env.query);
      TakeCheckStep(n.shared, me, n.handler, env, n2);
      NothingLeft(n2.shared, me, n2.handler, env);
      if n2.handler.spc.AwaitStore? {
        StoreAnswers(n2.shared, me, n2.handler, env);
      }
    }
  }

  lemma StoreAnswers(sh: Shared, me: nat, h: Handler, env: Env)
    requires env.CheckEnv? && h.Check? && h.spc.AwaitStore?
    ensures ResultOf(Finish(sh, me, h, env).handler) ==
            if env.store.Throws? then Failure(Unavailable)
            else Success(Response(h.id, h.spc.word, h.spc.row.amount, h.spc.row.currency))
  {
    hide Finish, UpdateWhere, RoutingKey, EventFor, IsTerminal;
    var n := StoreStep(sh, me, h, env.store);
    TakeCheckStep(sh, me, h, env, n);
    NothingLeft(n.shared, me, n.handler, env);
    if n.handler.spc.AwaitCheckPublish? {
      var n2 := CheckStep(n.shared, me, n.handler, env.publish);
      TakeCheckStep(n.shared, me, n.handler, env, n2);
      var n3 := CheckStep(n2.shared, me, n2.handler, env.notify);
      TakeCheckStep(n2.shared, me, n2.handler, env, n3);
      NothingLeft(n3.shared, me, n3.handler, env);
    }
  }

  lemma ReleaseAnswers(sh: Shared, me: nat, h: Handler, env: Env)
    requires env.CallbackEnv? && h.Callback? && h.cpc.AwaitRelease?
    ensures ResultOf(Finish(sh, me, h, env).handler) ==
            if env.release.Throws? then Failure(Unavailable) else CallbackResult(h.Id(), h.cpc.exit, NotHeld)
  {
    hide Finish, ExtractTransactionId, BuildCallbackLockKey;
    var n := ReleaseStep(sh, me, h, env.release);
    TakeRelease(sh, me, h, env, n);
    NothingLeft(n.shared, me, n.handler, env);
  }

  /** From the write on. */
  lemma WriteAnswers(sh: Shared, me: nat, h: Handler, env: Env)
    requires env.CallbackEnv? && h.Callback? && h.cpc.AwaitUpdate?
    ensures ResultOf(Finish(sh, me, h, env).handler) ==
            if env.release.Throws? || env.update.Throws? then Failure(Unavailable)
            else Success(Response(h.Id(), h.cpc.status, h.cpc.row.amount, h.cpc.row.currency))
  {
    hide Finish, UpdateWhere, RoutingKey, EventFor, ExtractTransactionId, BuildCallbackLockKey;
    var n := UpdateStep(sh, me, h, env.update);
    TakeUpdate(sh, me, h, env, n);
    if n.handler.cpc.AwaitRelease? {
      ReleaseAnswers(n.shared, me, n.handler, env);
    } else {
      var n2 := PublishStep(n.shared, me, n.handler, env.publish);
      TakeCallbackStep(n.shared, me, n.handler, env, n2);
      var n3 := NotifyStep(n2.shared, me, n2.handler, env.notify);
      TakeCallbackStep(n2.shared, me, n2.handler, env, n3);
      ReleaseAnswers(n3.shared, me, n3.handler, env);
    }
  }

  lemma LockedAnswers(sh: Shared, me: nat, h: Handler, env: Env)
    requires env.CallbackEnv? && h.Callback? && h.cpc.AwaitRead?
    ensures ResultOf(Finish(sh, me, h, env).handler) ==
            AnswerUnderLock(FindById(sh.rows, h.Id()), h.Id(), ExtractStatusFromCallback(h.payload), env)
  {
    hide Finish, FindById, ExtractTransactionId, ExtractStatusFromCallback, BuildCallbackLockKey;
    var n := ReadStep(sh, me, h, env.read);
    TakeRead(sh, me, h, env, n);
    if n.handler.cpc.AwaitRelease? {
      ReleaseAnswers(n.shared, me, n.handler, env);
    } else {
      var n2 := ConfigStep(n.shared, me, n.handler, env.config);
      TakeConfig(n.shared, me, n.handler, env, n2);
      if n2.handler.cpc.AwaitRelease? {
        ReleaseAnswers(n2.shared, me, n2.handler, env);
      } else {
        WriteAnswers(n2.shared, me, n2.handler, env);
      }
    }
  }

  lemma MissAnswers(sh: Shared, me: nat, h: Handler, env: Env)
    requires env.CallbackEnv? && h.Callback? && h.cpc.AwaitMissRead?
    ensures ResultOf(Finish(sh, me, h, env).handler) == AnswerToMiss(FindById(sh.rows, h.Id()), h.Id(), env)
  {
    hide Finish, FindById, ExtractTransactionId, BuildCallbackLockKey;
    var n := MissReadStep(sh, me, h, env.missRead);
    TakeMissRead(sh, me, h, env, n);
    NothingLeft(n.shared, me, n.handler, env);
  }

  /** The answer to a callback, by the fields of its body. */
  lemma CallbackAnswers(sh: Shared, me: nat, partner: string, payload: WebhookPayload, env: Env, id: string, status: string)
    requires env.CallbackEnv? && GivesId(payload, id) && ReportsStatus(payload, status)
    ensures ResultOf(Finish(sh, me, NewCallback(partner, payload), env).handler) ==
            AnswerToCallback(sh.rows, sh.locks, partner, id, status, env)
  {
    IdComesFromFields(payload, id);
    StatusComesFromFields(payload, status);
    hide Finish, FindById, ExtractTransactionId, ExtractStatusFromCallback, AnswerUnderLock, AnswerToMiss;
    var h := NewCallback(partner, payload);
    var n := LockStep(sh, me, h, env.lock);
    TakeLock(sh, me, h, env, n);
    NothingLeft(n.shared, me, n.handler, env);
    if n.handler.cpc.AwaitMissRead? {
      MissAnswers(n.shared, me, n.handler, env);
    } else if n.handler.cpc.AwaitRead? {
      LockedAnswers(n.shared, me, n.handler, env);
    }
  }
}
