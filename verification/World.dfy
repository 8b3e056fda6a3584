/** The state every handler shares: the table, the Redis locks and their clock, the broker, Aspin, the job queue
    and the counters, together with what one awaited call does to each of them. */
module World {
  import opened Wrappers
  import opened PaymentDomain
  import opened PaymentTable

  /** How an awaited call ends. A call that throws may have taken effect before the error came back. */
  datatype Outcome =
    | Ok
    | Rejected
    | Throws(applied: bool)
    | Answer(word: Option<string>)
  {
    predicate TakesEffect() {
      Throws? ==> applied
    }
  }

  datatype Error =
    | TransactionNotFound
    | DuplicateTransactionAttempt
    | InvalidCallbackSignature
    | UnknownPaymentStatus
    | PartnerExecutorNotFound
    | MalformedPayload
    | Unavailable

  /** Lifetime of a callback lock, in clock units (seconds in the source). */
  const TTL: nat := 30

  /** A Redis key that is set. The stored value is the constant "1"; `owner` remembers who set it
      and is read by no step. */
  datatype Lock = Lock(owner: nat, deadline: nat)

  datatype PaymentEvent = PaymentEvent(
    transactionId: Option<string>,
    partnerId: string,
    channel: string,
    amount: real,
    currency: string,
    status: string,
    customerId: string,
    reference: string)

  /** One attempt to publish an event, and whether the broker accepted it. */
  datatype Attempt = Attempt(routingKey: string, event: PaymentEvent, accepted: bool)

  /** One call of `notifyPaymentStatus`. */
  datatype Notice = Notice(
    transactionId: Option<string>,
    status: string,
    amount: real,
    currency: string,
    delivered: bool)

  datatype Metrics = Metrics(initiated: nat, received: nat, processed: nat, succeeded: nat, failed: nat)

  datatype Shared = Shared(
    rows: Table,
    locks: map<string, Lock>,
    now: nat,
    broker: seq<Attempt>,
    notices: seq<Notice>,
    jobs: seq<string>,
    metrics: Metrics)

  /** The columns `statusCheck` writes. */
  function StatusPatch(status: string): Patch {
    Patch(Some(status), None)
  }

  /** The columns `handleCallback` writes. */
  function CallbackPatch(status: string): Patch {
    Patch(Some(status), Some(true))
  }

  function EventFor(row: Row, status: string): PaymentEvent {
    PaymentEvent(row.transactionId, row.partnerId, row.channel, row.amount, row.currency, status, row.customerId, row.reference)
  }

  function AttemptFor(row: Row, status: string, accepted: bool): Attempt {
    Attempt(RoutingKey(status, row.partnerId), EventFor(row, status), accepted)
  }

  /** Aspin is told `completed` or `failed`; a pending payment counts as failed. */
  function NoticeFor(row: Row, status: string, delivered: bool): Notice {
    Notice(row.transactionId, if status == COMPLETED then COMPLETED else FAILED, row.amount, row.currency, delivered)
  }

  /** The row `initiate` creates; the phone number is filled from the customer id. */
  function NewRow(request: Request, channel: string): Row {
    Row(request.reference, None, request.partnerId, channel, request.customerId, request.customerId, channel,
        request.amount, request.currency, PENDING, false)
  }
}
