/** The stores and services the executors are given: each a class over the part of the shared state it owns.
    Every awaited call takes its outcome as a parameter. */
module Services {
  import opened Wrappers
  import opened PaymentDomain
  import opened PaymentTable
  import opened World

  /** `PaymentRepositoryImpl`: the payments table behind TypeORM. */
  class PaymentRepositoryImpl {
    var rows: Table

    constructor ()
      ensures rows == map[]
    {
      rows := map[];
    }

    method Create(payment: Row, o: Outcome) returns (r: Result<(), Error>)
      modifies this
      ensures rows == if o.TakesEffect() then Upsert(old(rows), payment) else old(rows)
      ensures r == if o.Throws? then Failure(Unavailable) else Success(())
    {
      if o.TakesEffect() {
        var id := None;
        if payment.reference in rows {
          id := rows[payment.reference].transactionId;
        }
        rows := rows[payment.reference := payment.(transactionId := id)];
      }
      r := if o.Throws? then Failure(Unavailable) else Success(());
    }

    method FindByTransactionId(id: string, o: Outcome) returns (r: Result<Option<Row>, Error>)
      requires WellFormed(rows)
      ensures r == if o.Throws? then Failure(Unavailable) else Success(FindById(rows, id))
    {
      if o.Throws? {
        return Failure(Unavailable);
      }
      if reference :| reference in rows && HasId(rows[reference], id) {
        FindByIdUnique(rows, reference, id);
        return Success(Some(rows[reference]));
      }
      return Success(None);
    }

    method FindByReference(reference: string, o: Outcome) returns (r: Result<Option<Row>, Error>)
      ensures r == if o.Throws? then Failure(Unavailable)
                   else Success(if reference in rows then Some(rows[reference]) else None)
    {
      if o.Throws? {
        return Failure(Unavailable);
      }
      return Success(if reference in rows then Some(rows[reference]) else None);
    }

    method Update(id: string, data: Patch, o: Outcome) returns (r: Result<(), Error>)
      modifies this
      ensures rows == if o.TakesEffect() then UpdateWhere(old(rows), id, data) else old(rows)
      ensures r == if o.Throws? then Failure(Unavailable) else Success(())
    {
      if o.TakesEffect() {
        rows := map reference | reference in rows ::
          if HasId(rows[reference], id) then Patched(rows[reference], data) else rows[reference];
      }
      r := if o.Throws? then Failure(Unavailable) else Success(());
    }

    method UpdateStatus(id: string, status: string, o: Outcome) returns (r: Result<(), Error>)
      modifies this
      ensures rows == if o.TakesEffect() then UpdateWhere(old(rows), id, StatusPatch(status)) else old(rows)
      ensures r == if o.Throws? then Failure(Unavailable) else Success(())
    {
      r := Update(id, Patch(Some(status), None), o);
    }

    method MarkAsProcessed(id: string, o: Outcome) returns (r: Result<(), Error>)
      modifies this
      ensures rows == if o.TakesEffect() then UpdateWhere(old(rows), id, Patch(None, Some(true))) else old(rows)
      ensures r == if o.Throws? then Failure(Unavailable) else Success(())
    {
      r := Update(id, Patch(None, Some(true)), o);
    }
  }

  /** The Redis client behind `RedisProvider`, with its clock. */
  class RedisClient {
    var keys: map<string, Lock>
    var now: nat

    constructor ()
      ensures keys == map[] && now == 0
    {
      keys, now := map[], 0;
    }

    /** `SET key '1' NX EX ttl`, answering whether the key was set. */
    method SetNx(key: string, owner: nat, ttl: nat, o: Outcome) returns (r: Result<bool, Error>)
      modifies `keys
      ensures keys == if key !in old(keys) && o.TakesEffect() then old(keys)[key := Lock(owner, now + ttl)] else old(keys)
      ensures r == if o.Throws? then Failure(Unavailable) else Success(key !in old(keys))
    {
      var free := key !in keys;
      if free && o.TakesEffect() {
        keys := keys[key := Lock(owner, now + ttl)];
      }
      r := if o.Throws? then Failure(Unavailable) else Success(free);
    }

    method Del(key: string, o: Outcome) returns (r: Result<(), Error>)
      modifies `keys
      ensures keys == if o.TakesEffect() then old(keys) - {key} else old(keys)
      ensures r == if o.Throws? then Failure(Unavailable) else Success(())
    {
      if o.TakesEffect() {
        keys := keys - {key};
      }
      r := if o.Throws? then Failure(Unavailable) else Success(());
    }
  }

  /** `RabbitMQService`: publishing never throws. */
  class RabbitMQService {
    var connection: bool
    var channel: bool
    var attempts: seq<Attempt>

    constructor ()
      ensures !connection && !channel && attempts == []
    {
      connection, channel, attempts := false, false, [];
    }

    /** Each of the three calls can fail on its own; what the ones before it assigned stays assigned. The timer that
        tries again is not part of this model. */
    method Connect(connect: Outcome, create: Outcome, exchange: Outcome) returns (ready: bool)
      modifies `connection, `channel
      ensures connection == (old(connection) || connect.Ok?)
      ensures channel == (old(channel) || (connect.Ok? && create.Ok?))
      ensures ready == (connect.Ok? && create.Ok? && exchange.Ok?)
    {
      if !connect.Ok? {
        return false;
      }
      connection := true;
      if !create.Ok? {
        return false;
      }
      channel := true;
      ready := exchange.Ok?;
    }

    method OnModuleInit(connect: Outcome, create: Outcome, exchange: Outcome)
      modifies `connection, `channel
      ensures connection == (old(connection) || connect.Ok?)
      ensures channel == (old(channel) || (connect.Ok? && create.Ok?))
    {
      var ready := Connect(connect, create, exchange);
    }

    /** `o` is what the broker's buffer would say to a message put into it. */
    method Publish(routingKey: string, message: PaymentEvent, o: Outcome) returns (published: bool)
      modifies `attempts
      ensures published == (channel && o.Ok?)
      ensures attempts == old(attempts) + [Attempt(routingKey, message, published)]
    {
      if !channel {
        published := false;
      } else {
        published := o.Ok?;
      }
      attempts := attempts + [Attempt(routingKey, message, published)];
    }

    method PublishPaymentCompleted(event: PaymentEvent, o: Outcome) returns (published: bool)
      modifies `attempts
      ensures published == (channel && o.Ok?)
      ensures attempts == old(attempts) + [Attempt(RoutingKey(COMPLETED, event.partnerId), event, published)]
    {
      published := Publish("payment.completed." + event.partnerId, event, o);
    }

    method PublishPaymentFailed(event: PaymentEvent, o: Outcome) returns (published: bool)
      modifies `attempts
      ensures published == (channel && o.Ok?)
      ensures attempts == old(attempts) + [Attempt(RoutingKey(FAILED, event.partnerId), event, published)]
    {
      assert FAILED != COMPLETED;
      published := Publish("payment.failed." + event.partnerId, event, o);
    }

    method PublishPaymentPending(event: PaymentEvent, o: Outcome) returns (published: bool)
      modifies `attempts
      ensures published == (channel && o.Ok?)
      ensures attempts == old(attempts) + [Attempt(RoutingKey(PENDING, event.partnerId), event, published)]
    {
      assert PENDING != COMPLETED && PENDING != FAILED;
      published := Publish("payment.pending." + event.partnerId, event, o);
    }
  }

  /** The Aspin adapter: one HTTP call per notice. */
  class AspinAdapter {
    var notices: seq<Notice>

    constructor ()
      ensures notices == []
    {
      notices := [];
    }

    method NotifyPaymentStatus(transactionId: Option<string>, status: string, amount: real, currency: string, o: Outcome)
      returns (r: Result<(), Error>)
      modifies this
      ensures notices == old(notices) + [Notice(transactionId, status, amount, currency, o.Ok?)]
      ensures r == if o.Ok? then Success(()) else Failure(Unavailable)
    {
      notices := notices + [Notice(transactionId, status, amount, currency, o.Ok?)];
      r := if o.Ok? then Success(()) else Failure(Unavailable);
    }
  }

  /** The queue service, as far as `initiate` uses it. */
  class QueueService {
    var jobs: seq<string>

    constructor ()
      ensures jobs == []
    {
      jobs := [];
    }

    method AddPaymentInitiationJob(reference: string, o: Outcome) returns (r: Result<(), Error>)
      modifies this
      ensures jobs == if o.TakesEffect() then old(jobs) + [reference] else old(jobs)
      ensures r == if o.Throws? then Failure(Unavailable) else Success(())
    {
      if o.TakesEffect() {
        jobs := jobs + [reference];
      }
      r := if o.Throws? then Failure(Unavailable) else Success(());
    }
  }

  /** The counters of `MetricsService` that the executors increment. */
  class MetricsService {
    var counts: Metrics

    constructor ()
      ensures counts == Metrics(0, 0, 0, 0, 0)
    {
      counts := Metrics(0, 0, 0, 0, 0);
    }

    method IncrementPaymentInitiated()
      modifies this
      ensures counts == old(counts).(initiated := old(counts).initiated + 1)
    {
      counts := counts.(initiated := counts.initiated + 1);
    }

    method IncrementWebhookReceived()
      modifies this
      ensures counts == old(counts).(received := old(counts).received + 1)
    {
      counts := counts.(received := counts.received + 1);
    }

    method IncrementWebhookProcessed()
      modifies this
      ensures counts == old(counts).(processed := old(counts).processed + 1)
    {
      counts := counts.(processed := counts.processed + 1);
    }

    method IncrementPaymentSuccess()
      modifies this
      ensures counts == old(counts).(succeeded := old(counts).succeeded + 1)
    {
      counts := counts.(succeeded := counts.succeeded + 1);
    }

    method IncrementWebhookFailed()
      modifies this
      ensures counts == old(counts).(failed := old(counts).failed + 1)
    {
      counts := counts.(failed := counts.failed + 1);
    }
  }

  /** The shared state of the protocol, read off the stores and services. */
  ghost function SharedState(payments: PaymentRepositoryImpl, redis: RedisClient, rabbit: RabbitMQService, aspin: AspinAdapter,
                             queue: QueueService, metrics: MetricsService): Shared
    reads payments, redis, rabbit, aspin, queue, metrics
  {
    Shared(payments.rows, redis.keys, redis.now, rabbit.attempts, aspin.notices, queue.jobs, metrics.counts)
  }
}
