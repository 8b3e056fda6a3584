/** `BasePaymentExecutor`: the three operations as the source writes them, statement by statement, over the stores and
    services. Each is proved to do exactly what its handler does when it runs alone. */
module Executor {
  import opened Wrappers
  import opened PaymentDomain
  import opened PaymentTable
  import opened World
  import opened Protocol
  import opened Services
  import opened Answers
  import opened SoleRuns
  import opened Coherence

  /** What the broker really answers: nothing is accepted without a channel. */
  ghost function Effective(rabbit: RabbitMQService, env: Env): Env
    requires env.CallbackEnv? || env.CheckEnv?
    reads rabbit
  {
    env.(publish := if rabbit.channel then env.publish else Throws(false))
  }

  class BasePaymentExecutor {
    const partner: string
    const channel: string
    const payments: PaymentRepositoryImpl
    const redis: RedisClient
    const rabbit: RabbitMQService
    const aspin: AspinAdapter
    const queue: QueueService
    const metrics: MetricsService

    constructor (partner: string, channel: string, payments: PaymentRepositoryImpl, redis: RedisClient,
                 rabbit: RabbitMQService, aspin: AspinAdapter, queue: QueueService, metrics: MetricsService)
      ensures this.partner == partner && this.channel == channel
      ensures this.payments == payments && this.redis == redis && this.rabbit == rabbit
      ensures this.aspin == aspin && this.queue == queue && this.metrics == metrics
    {
      this.partner, this.channel := partner, channel;
      this.payments, this.redis, this.rabbit := payments, redis, rabbit;
      this.aspin, this.queue, this.metrics := aspin, queue, metrics;
    }

    ghost function View(): Shared
      reads payments, redis, rabbit, aspin, queue, metrics
    {
      SharedState(payments, redis, rabbit, aspin, queue, metrics)
    }

    /** Transaction ids are unique in the table. */
    ghost predicate Valid()
      reads payments
    {
      WellFormed(payments.rows)
    }

    method AcquireCallbackLock(key: string, me: nat, o: Outcome) returns (r: Result<bool, Error>)
      modifies redis`keys
      ensures redis.keys == if key !in old(redis.keys) && o.TakesEffect()
                            then old(redis.keys)[key := Lock(me, redis.now + 30)] else old(redis.keys)
      ensures r == if o.Throws? then Failure(Unavailable) else Success(key !in old(redis.keys))
    {
      r := redis.SetNx(key, me, TTL, o);
    }

    method ReleaseCallbackLock(key: string, o: Outcome) returns (r: Result<(), Error>)
      modifies redis`keys
      ensures redis.keys == if o.TakesEffect() then old(redis.keys) - {key} else old(redis.keys)
      ensures r == if o.Throws? then Failure(Unavailable) else Success(())
    {
      r := redis.Del(key, o);
    }

    /** Publish under the routing key of the status, then tell Aspin; neither failure reaches the caller. */
    method PublishPaymentResult(payment: Row, status: string, publish: Outcome, notify: Outcome)
      modifies rabbit`attempts, aspin
      ensures rabbit.attempts == old(rabbit.attempts) + [AttemptFor(payment, status, rabbit.channel && publish.Ok?)]
      ensures aspin.notices == old(aspin.notices) + [NoticeFor(payment, status, notify.Ok?)]
    {
      var event := PaymentEvent(payment.transactionId, payment.partnerId, payment.channel, payment.amount,
                                payment.currency, status, payment.customerId, payment.reference);
      var published;
      if status == COMPLETED {
        published := rabbit.PublishPaymentCompleted(event, publish);
      } else if status == FAILED {
        published := rabbit.PublishPaymentFailed(event, publish);
      } else {
        published := rabbit.PublishPaymentPending(event, publish);
        assert RoutingKey(PENDING, payment.partnerId) == "payment.pending." + payment.partnerId;
      }
      var aspinStatus := if status == COMPLETED then COMPLETED else FAILED;
      var notified := aspin.NotifyPaymentStatus(payment.transactionId, aspinStatus, payment.amount, payment.currency, notify);
    }

    method StatusCheck(id: string, env: Env, ghost me: nat) returns (r: Result<Response, Error>)
      requires Valid() && env.CheckEnv?
      modifies payments, rabbit`attempts, aspin
      ensures Valid()
      ensures var f := Finish(old(View()), me, NewCheck(id), old(Effective(rabbit, env)));
              View() == f.shared && r == ResultOf(f.handler)
      ensures r == AnswerToCheck(FindById(old(payments.rows), id), id, env)
    {
      CheckAnswers(View(), me, id, Effective(rabbit, env));
      hide RoutingKey, EventFor, AttemptFor, NoticeFor, UpdateWhere, FindById, Finish;
      ghost var effective := Effective(rabbit, env);
      ghost var n := FindStep(View(), me, NewCheck(id), env.find);
      TakeCheckStep(View(), me, NewCheck(id), effective, n);
      NothingLeft(n.shared, me, n.handler, effective);
      var found :- payments.FindByTransactionId(id, env.find);
      if found.None? {
        return Failure(TransactionNotFound);
      }
      var payment := found.value;
      assert n.shared == View() && n.handler == Check(id, AwaitQuery(payment));

      n := QueryStep(View(), me, n.handler, env.query);
      TakeCheckStep(View(), me, Check(id, AwaitQuery(payment)), effective, n);
      NothingLeft(n.shared, me, n.handler, effective);
      if !env.query.Answer? {
        return Failure(Unavailable);
      }
      if env.query.word.None? {
        return Failure(UnknownPaymentStatus);
      }
      var status := env.query.word.value;
      if status != payment.status {
        r := StoreStatus(id, payment, status, env, me);
      } else {
        r := Success(Response(id, status, payment.amount, payment.currency));
      }
    }

    /** The branch of `statusCheck` for a status that differs from the row's. */
    method StoreStatus(id: string, payment: Row, status: string, env: Env, ghost me: nat)
      returns (r: Result<Response, Error>)
      requires Valid() && env.CheckEnv?
      modifies payments, rabbit`attempts, aspin
      ensures Valid()
      ensures var f := Finish(old(View()), me, Check(id, AwaitStore(payment, status)), old(Effective(rabbit, env)));
              View() == f.shared && r == ResultOf(f.handler)
      ensures r == if env.store.Throws? then Failure(Unavailable)
                   else Success(Response(id, status, payment.amount, payment.currency))
    {
      hide RoutingKey, EventFor, AttemptFor, NoticeFor, UpdateWhere, FindById, Finish;
      ghost var effective := Effective(rabbit, env);
      ghost var n := StoreStep(View(), me, Check(id, AwaitStore(payment, status)), env.store);
      TakeCheckStep(View(), me, Check(id, AwaitStore(payment, status)), effective, n);
      NothingLeft(n.shared, me, n.handler, effective);
      UpdateWhereWellFormed(payments.rows, id, StatusPatch(status));
      var _ :- payments.UpdateStatus(id, status, env.store);
      if status == COMPLETED || status == FAILED {
        PublishedCheck(View(), me, id, payment, status, effective);
        PublishPaymentResult(payment, status, env.publish, env.notify);
      }
      r := Success(Response(id, status, payment.amount, payment.currency));
    }

    /** The two remaining steps of a status check that has written a final status. */
    lemma PublishedCheck(sh: Shared, me: nat, id: string, payment: Row, status: string, env: Env)
      requires env.CheckEnv?
      ensures Finish(sh, me, Check(id, AwaitCheckPublish(payment, status)), env) ==
              Finished(sh.(broker := sh.broker + [AttemptFor(payment, status, env.publish.Ok?)],
                           notices := sh.notices + [NoticeFor(payment, status, env.notify.Ok?)]),
                       Check(id, CheckDone(Announced(payment, status))))
    {
      hide RoutingKey, AttemptFor, NoticeFor;
      var mid := sh.(broker := sh.broker + [AttemptFor(payment, status, env.publish.Ok?)]);
      assert Finish(sh, me, Check(id, AwaitCheckPublish(payment, status)), env) ==
             Finish(mid, me, Check(id, AwaitCheckNotify(payment, status)), env);
      var last := mid.(notices := mid.notices + [NoticeFor(payment, status, env.notify.Ok?)]);
      assert Finish(mid, me, Check(id, AwaitCheckNotify(payment, status)), env) ==
             Finish(last, me, Check(id, CheckDone(Announced(payment, status))), env);
    }

    /** The body of the inner `try` block, from the read under the lock to its exit. */
    method ProcessLocked(payload: WebhookPayload, id: string, env: Env, ghost me: nat, ghost since: nat)
      returns (exit: Exit)
      requires Valid() && env.CallbackEnv? && ExtractTransactionId(payload) == Some(id)
      modifies payments, rabbit`attempts, aspin, metrics
      ensures Valid()
      ensures !KeyNeverTaken(exit)
      ensures Finish(old(View()), me, Callback(partner, payload, since, AwaitRead), old(Effective(rabbit, env))) ==
              Finish(View(), me, Callback(partner, payload, since, AwaitRelease(exit)), old(Effective(rabbit, env)))
    {
      hide RoutingKey, EventFor, AttemptFor, NoticeFor, UpdateWhere, FindById, ExtractTransactionId,
        ExtractStatusFromCallback, BuildCallbackLockKey, Finish, CallbackStep;
      ghost var effective := Effective(rabbit, env);
      ghost var h := Callback(partner, payload, since, AwaitRead);
      ghost var n := ReadStep(View(), me, h, env.read);
      TakeRead(View(), me, h, effective, n);
      var found := payments.FindByTransactionId(id, env.read);
      if found.Failure? {
        return ReadFailed(found.error);
      }
      if found.value.None? {
        return ReadFailed(TransactionNotFound);
      }
      var payment := found.value.value;
      metrics.IncrementWebhookReceived();
      if payment.processed {
        return Duplicate(payment);
      }
      assert n.shared == View() && n.handler == h.(cpc := AwaitConfig(payment));

      n := ConfigStep(View(), me, n.handler, env.config);
      TakeConfig(View(), me, h.(cpc := AwaitConfig(payment)), effective, n);
      if !env.config.Ok? {
        return ConfigFailed(if env.config.Rejected? then InvalidCallbackSignature else Unavailable);
      }
      var status := ExtractStatusFromCallback(payload);
      exit := WriteAndAnnounce(payload, id, payment, status, env, me, since);
    }

    /** The rest of that body, once the signature has passed. */
    method WriteAndAnnounce(payload: WebhookPayload, id: string, payment: Row, status: string, env: Env, ghost me: nat,
                            ghost since: nat)
      returns (exit: Exit)
      requires Valid() && env.CallbackEnv? && ExtractTransactionId(payload) == Some(id)
      modifies payments, rabbit`attempts, aspin, metrics
      ensures Valid()
      ensures !KeyNeverTaken(exit)
      ensures Finish(old(View()), me, Callback(partner, payload, since, AwaitUpdate(payment, status)),
                     old(Effective(rabbit, env))) ==
              Finish(View(), me, Callback(partner, payload, since, AwaitRelease(exit)), old(Effective(rabbit, env)))
    {
      hide RoutingKey, EventFor, AttemptFor, NoticeFor, UpdateWhere, FindById, ExtractTransactionId,
        ExtractStatusFromCallback, BuildCallbackLockKey, Finish, CallbackStep;
      ghost var effective := Effective(rabbit, env);
      ghost var h := Callback(partner, payload, since, AwaitUpdate(payment, status));
      ghost var n := UpdateStep(View(), me, h, env.update);
      TakeUpdate(View(), me, h, effective, n);
      UpdateWhereWellFormed(payments.rows, id, CallbackPatch(status));
      var updated := payments.Update(id, Patch(Some(status), Some(true)), env.update);
      if updated.Failure? {
        return UpdateFailed(status, env.update.applied);
      }
      assert n.shared == View() && n.handler == h.(cpc := AwaitPublish(payment, status));

      PublishedCallback(View(), me, payload, since, payment, status, effective);
      PublishPaymentResult(payment, status, env.publish, env.notify);
      metrics.IncrementWebhookProcessed();
      if status == COMPLETED {
        metrics.IncrementPaymentSuccess();
      }
      exit := Processed(payment, status);
    }

    /** The two steps of a callback between its write and its exit. */
    lemma PublishedCallback(sh: Shared, me: nat, payload: WebhookPayload, since: nat, payment: Row, status: string, env: Env)
      requires env.CallbackEnv?
      ensures Finish(sh, me, Callback(partner, payload, since, AwaitPublish(payment, status)), env) ==
              Finish(sh.(broker := sh.broker + [AttemptFor(payment, status, env.publish.Ok?)],
                         notices := sh.notices + [NoticeFor(payment, status, env.notify.Ok?)],
                         metrics := sh.metrics.(processed := sh.metrics.processed + 1,
                           succeeded := sh.metrics.succeeded + if status == COMPLETED then 1 else 0)),
                     me, Callback(partner, payload, since, AwaitRelease(Processed(payment, status))), env)
    {
      hide RoutingKey, AttemptFor, NoticeFor, ExtractTransactionId, BuildCallbackLockKey;
      var mid := sh.(broker := sh.broker + [AttemptFor(payment, status, env.publish.Ok?)]);
      assert Finish(sh, me, Callback(partner, payload, since, AwaitPublish(payment, status)), env) ==
             Finish(mid, me, Callback(partner, payload, since, AwaitNotify(payment, status)), env);
    }

    /** The inner `try` with its `finally`, and the counting of a throw that leaves it. */
    method RunLocked(payload: WebhookPayload, id: string, env: Env, ghost me: nat, ghost since: nat)
      returns (r: Result<Response, Error>)
      requires Valid() && env.CallbackEnv? && ExtractTransactionId(payload) == Some(id)
      modifies payments, redis`keys, rabbit`attempts, aspin, metrics
      ensures Valid()
      ensures var f := Finish(old(View()), me, Callback(partner, payload, since, AwaitRead), old(Effective(rabbit, env)));
              View() == f.shared && r == ResultOf(f.handler)
      ensures forall status :: ReportsStatus(payload, status) ==>
                r == AnswerUnderLock(FindById(old(payments.rows), id), id, status, env)
    {
      LockedReports(View(), me, payload, id, since, Effective(rabbit, env));
      hide ReportsStatus, AnswerUnderLock;
      hide FindById, WellFormed, Finish, BuildCallbackLockKey, CallbackStep, ExtractTransactionId, CallbackResult;
      ghost var effective := Effective(rabbit, env);
      var exit := ProcessLocked(payload, id, env, me, since);
      ghost var h := Callback(partner, payload, since, AwaitRelease(exit));
      ghost var n := ReleaseStep(View(), me, h, env.release);
      TakeRelease(View(), me, h, effective, n);
      NothingLeft(n.shared, me, n.handler, effective);
      var released := ReleaseCallbackLock(BuildCallbackLockKey(partner, id), env.release);
      if released.Failure? {
        metrics.IncrementWebhookFailed();
        return Failure(released.error);
      }
      if ExitThrows(exit) {
        metrics.IncrementWebhookFailed();
      }
      r := CallbackResult(id, exit, NotHeld);
    }

    /** The answer under the lock, by the status that the body reports. */
    lemma LockedReports(sh: Shared, me: nat, payload: WebhookPayload, id: string, since: nat, env: Env)
      requires env.CallbackEnv? && ExtractTransactionId(payload) == Some(id)
      ensures forall status :: ReportsStatus(payload, status) ==>
                ResultOf(Finish(sh, me, Callback(partner, payload, since, AwaitRead), env).handler) ==
                AnswerUnderLock(FindById(sh.rows, id), id, status, env)
    {
      LockedAnswers(sh, me, Callback(partner, payload, since, AwaitRead), env);
      StatusComesFromFields(payload, ExtractStatusFromCallback(payload));
      hide ReportsStatus, AnswerUnderLock, FindById, Finish, ExtractStatusFromCallback, ExtractTransactionId;
    }

    /** `me` names the caller in the history of the lock; the source stores no such name. */
    method HandleCallback(payload: WebhookPayload, env: Env, me: nat) returns (r: Result<Response, Error>)
      requires Valid() && env.CallbackEnv? && ExtractTransactionId(payload).Some?
      modifies payments, redis`keys, rabbit`attempts, aspin, metrics
      ensures Valid()
      ensures var f := Finish(old(View()), me, NewCallback(partner, payload), old(Effective(rabbit, env)));
              View() == f.shared && r == ResultOf(f.handler)
      ensures forall id, status :: GivesId(payload, id) && ReportsStatus(payload, status) ==>
                r == AnswerToCallback(old(payments.rows), old(redis.keys), partner, id, status, env)
    {
      forall id, status | GivesId(payload, id) && ReportsStatus(payload, status)
        ensures ResultOf(Finish(View(), me, NewCallback(partner, payload), Effective(rabbit, env)).handler) ==
                AnswerToCallback(payments.rows, redis.keys, partner, id, status, env)
      {
        CallbackAnswers(View(), me, partner, payload, Effective(rabbit, env), id, status);
      }
      hide GivesId, ReportsStatus, AnswerToCallback;
      var id := ExtractTransactionId(payload).value;
      hide FindById, WellFormed, Finish, BuildCallbackLockKey, ExtractTransactionId, ExtractStatusFromCallback, CallbackStep,
        AnswerUnderLock, AnswerToMiss;
      ghost var effective := Effective(rabbit, env);
      ghost var h := NewCallback(partner, payload);
      ghost var n := LockStep(View(), me, h, env.lock);
      TakeLock(View(), me, h, effective, n);
      var acquired := AcquireCallbackLock(BuildCallbackLockKey(partner, id), me, env.lock);
      if acquired.Failure? {
        metrics.IncrementWebhookFailed();
        NothingLeft(View(), me, n.handler, effective);
        return Failure(acquired.error);
      }
      if !acquired.value {
        r := MissedLock(payload, id, env, me);
      } else {
        assert n.shared == View() && n.handler == h.(since := redis.now, cpc := AwaitRead);
        r := RunLocked(payload, id, env, me, redis.now);
      }
    }

    /** The branch of `handleCallback` for a lock it did not get. */
    method MissedLock(payload: WebhookPayload, id: string, env: Env, ghost me: nat) returns (r: Result<Response, Error>)
      requires Valid() && env.CallbackEnv? && ExtractTransactionId(payload) == Some(id)
      modifies metrics
      ensures var f := Finish(old(View()), me, Callback(partner, payload, 0, AwaitMissRead), Effective(rabbit, env));
              View() == f.shared && r == ResultOf(f.handler)
      ensures r == AnswerToMiss(FindById(payments.rows, id), id, env)
    {
      hide FindById, Finish, BuildCallbackLockKey, ExtractStatusFromCallback, CallbackStep;
      ghost var h := Callback(partner, payload, 0, AwaitMissRead);
      ghost var n := MissReadStep(View(), me, h, env.missRead);
      TakeMissRead(View(), me, h, Effective(rabbit, env), n);
      NothingLeft(n.shared, me, n.handler, Effective(rabbit, env));
      var existing := payments.FindByTransactionId(id, env.missRead);
      if existing.Failure? {
        metrics.IncrementWebhookFailed();
        return Failure(existing.error);
      }
      if existing.value.None? {
        metrics.IncrementWebhookFailed();
        return Failure(TransactionNotFound);
      }
      var row := existing.value.value;
      r := Success(Response(id, row.status, row.amount, row.currency));
    }

    method Initiate(payload: Request, env: Env, ghost me: nat) returns (r: Result<Response, Error>)
      requires Valid() && env.InitiateEnv?
      modifies payments, queue, metrics
      ensures Valid()
      ensures var started := old(View()).(metrics := CountSpawn(old(View()).metrics, NewInitiate(payload, channel)));
              var f := Finish(started, me, NewInitiate(payload, channel), env);
              View() == f.shared && r == ResultOf(f.handler)
      ensures r == AnswerToInitiation(payload, payload.reference in old(payments.rows), env)
    {
      hide Upsert, Finish;
      metrics.IncrementPaymentInitiated();
      ghost var h := NewInitiate(payload, channel);
      ghost var n := InitiateStep(View(), me, h, env.lookup);
      TakeInitiateStep(View(), me, h, env, n);
      NothingLeft(n.shared, me, n.handler, env);
      var existing :- payments.FindByReference(payload.reference, env.lookup);
      if existing.Some? {
        return Failure(DuplicateTransactionAttempt);
      }
      assert n.shared == View() && n.handler == h.(ipc := AwaitCreate);

      n := InitiateStep(View(), me, n.handler, env.create);
      TakeInitiateStep(View(), me, h.(ipc := AwaitCreate), env, n);
      NothingLeft(n.shared, me, n.handler, env);
      UpsertKeeps(payments.rows, NewRow(payload, channel));
      var _ :- payments.Create(
        Row(payload.reference, None, payload.partnerId, channel, payload.customerId, payload.customerId, channel,
            payload.amount, payload.currency, PENDING, false), env.create);
      assert n.shared == View() && n.handler == h.(ipc := AwaitEnqueue);

      n := InitiateStep(View(), me, n.handler, env.enqueue);
      TakeInitiateStep(View(), me, h.(ipc := AwaitEnqueue), env, n);
      NothingLeft(n.shared, me, n.handler, env);
      var _ :- queue.AddPaymentInitiationJob(payload.reference, env.enqueue);
      r := Success(Response("", PENDING, payload.amount, payload.currency));
    }
  }
}
