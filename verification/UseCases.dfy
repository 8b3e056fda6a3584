/** `PaymentsUseCaseImpl`: requests, webhooks and stored rows find their executor. */
module UseCases {
  import opened Wrappers
  import opened PaymentDomain
  import opened PaymentTable
  import opened World
  import opened Protocol
  import opened Services
  import opened Answers
  import opened SoleRuns
  import opened Executor
  import opened Builder
  import opened Identity
  import opened Lookups
  import opened RowLife

  function DetermineChannelFromPayload(p: WebhookPayload): string {
    if p.merchantRequestId.Truthy() || p.checkoutRequestId.Truthy() then MPESA
    else if p.airtelTransactionId.Truthy() || p.airtelMoneyId.Truthy() then AIRTEL
    else MPESA
  }

  /** The executor a webhook is dispatched to. */
  function WebhookExecutor(registered: seq<BasePaymentExecutor>, p: WebhookPayload, partnerId: string)
    : Option<BasePaymentExecutor>
  {
    LastFor(registered, ExecutorKey(Upper(partnerId), DetermineChannelFromPayload(p)))
  }

  // ---------- Dispatch through stored rows ----------

  lemma FoundUnderItsKey(registered: seq<BasePaymentExecutor>, key: string)
    requires LastFor(registered, key).Some?
    ensures KeyOf(LastFor(registered, key).value) == key
    ensures exists i :: 0 <= i < |registered| && registered[i] == LastFor(registered, key).value
  {
    LastForIsLast(registered, key);
  }

  /** The executor that accepts a request stores the request's own partner id with its own channel. A status check on
      that row, and on any other spelling of the partner id in upper or lower case, finds the same executor again,
      exactly when the requested channel has no underscore; and that executor then serves the request's partner and
      channel. */
  lemma StoredRowsFindTheirExecutor(registered: seq<BasePaymentExecutor>, request: Request, spelling: string)
    requires UnderscoreFreeChannels(registered) && SameLetters(spelling, request.partnerId)
    requires LastFor(registered, ExecutorKey(request.partnerId, request.channel)).Some?
    ensures var e := LastFor(registered, ExecutorKey(request.partnerId, request.channel)).value;
            && (LastFor(registered, ExecutorKey(request.partnerId, e.channel)) == Some(e) <==> '_' !in request.channel)
            && LastFor(registered, ExecutorKey(spelling, e.channel)) ==
               LastFor(registered, ExecutorKey(request.partnerId, e.channel))
            && ('_' !in request.channel ==> Serves(e, request.partnerId, request.channel))
  {
    var key := ExecutorKey(request.partnerId, request.channel);
    var e := LastFor(registered, key).value;
    SameSpellingSameKey(spelling, request.partnerId, e.channel);
    hide LastFor, ExecutorKey, SameLetters;
    var back := ExecutorKey(request.partnerId, e.channel);
    FoundUnderItsKey(registered, key);
    if '_' !in request.channel {
      KeysSeparate(e.partner, e.channel, request.partnerId, request.channel);
    } else if LastFor(registered, back) == Some(e) {
      FoundUnderItsKey(registered, back);
      assert back == key;
      SameKeySameChannel(request.partnerId, e.channel, request.channel);
    }
  }

  lemma SameSpellingSameKey(p: string, q: string, channel: string)
    requires SameLetters(p, q)
    ensures ExecutorKey(p, channel) == ExecutorKey(q, channel)
  {
    UpperIffSameLetters(p, q);
  }

  lemma SameKeySameChannel(partner: string, c: string, d: string)
    requires ExecutorKey(partner, c) == ExecutorKey(partner, d)
    ensures c == d
  {
    var n := |Upper(partner)| + 1;
    assert c == ExecutorKey(partner, c)[n..] && d == ExecutorKey(partner, d)[n..];
  }

  /** Every initiation in the run was dispatched by the registry, with a channel free of underscores. */
  predicate DispatchedBy(hs: seq<Handler>, registered: seq<BasePaymentExecutor>) {
    forall i :: 0 <= i < |hs| && hs[i].Initiate? ==>
      var found := LastFor(registered, ExecutorKey(hs[i].request.partnerId, hs[i].request.channel));
      && '_' !in hs[i].request.channel
      && found.Some? && found.value.channel == hs[i].channel
  }

  /** Every row of every reachable state finds the executor of the initiation that asked for it. */
  lemma ReachableRowsFindTheirExecutor(labels: seq<Label>, registered: seq<BasePaymentExecutor>, r: string)
    requires var s := Run(INIT, labels);
             UnderscoreFreeChannels(registered) && DispatchedBy(s.handlers, registered) && r in s.shared.rows
    ensures var s := Run(INIT, labels);
            var row := s.shared.rows[r];
            exists i :: 0 <= i < |s.handlers| && Fulfils(row, s.handlers[i]) &&
              LastFor(registered, ExecutorKey(row.partnerId, row.channel)) ==
              LastFor(registered, ExecutorKey(s.handlers[i].request.partnerId, s.handlers[i].request.channel)) &&
              LastFor(registered, ExecutorKey(row.partnerId, row.channel)).Some?
  {
    var s := Run(INIT, labels);
    hide Run, LastFor, ExecutorKey;
    RequestedThroughout(labels);
    var i :| 0 <= i < |s.handlers| && Fulfils(s.shared.rows[r], s.handlers[i]);
    assert SameLetters(s.handlers[i].request.partnerId, s.handlers[i].request.partnerId);
    hide SameLetters;
    StoredRowsFindTheirExecutor(registered, s.handlers[i].request, s.handlers[i].request.partnerId);
  }

  // ---------- Lock keys ----------

  /** Partner names in capitals without a colon, channels without an underscore: true of the three shipped executors. */
  predicate PlainNames(registered: seq<BasePaymentExecutor>) {
    && UnderscoreFreeChannels(registered)
    && forall i :: 0 <= i < |registered| ==> NoLowerCase(registered[i].partner) && ':' !in registered[i].partner
  }

  lemma ShippedNamesArePlain(registered: seq<BasePaymentExecutor>)
    requires Shipped(registered)
    ensures PlainNames(registered)
  {
  }

  lemma WebhookChannelIsPlain(p: WebhookPayload)
    ensures '_' !in DetermineChannelFromPayload(p)
  {
  }

  /** A dispatched webhook is handled by an executor of its partner, under that partner's name in capitals, whichever
      channel was detected. */
  lemma WebhookPartner(registered: seq<BasePaymentExecutor>, p: WebhookPayload, partnerId: string)
    requires PlainNames(registered) && WebhookExecutor(registered, p, partnerId).Some?
    ensures var name := WebhookExecutor(registered, p, partnerId).value.partner;
            SameLetters(name, partnerId) && NoLowerCase(name) && ':' !in name
  {
    var channel := DetermineChannelFromPayload(p);
    WebhookChannelIsPlain(p);
    WebhookKey(partnerId, channel);
    LookupServes(registered, partnerId, channel);
    hide DetermineChannelFromPayload, LastFor, ExecutorKey;
  }

  /** Upper-casing the partner id before the lookup changes nothing. */
  lemma WebhookKey(partnerId: string, channel: string)
    ensures ExecutorKey(Upper(partnerId), channel) == ExecutorKey(partnerId, channel)
  {
    UpperIsCapital(partnerId);
    SameSpellingSameKey(Upper(partnerId), partnerId, channel);
  }

  /** Two dispatched webhooks contend on one lock key exactly when they name the same transaction and the same partner
      up to letter case. */
  lemma WebhooksContend(registered: seq<BasePaymentExecutor>, p: WebhookPayload, partnerP: string, idP: string,
                        q: WebhookPayload, partnerQ: string, idQ: string)
    requires PlainNames(registered)
    requires WebhookExecutor(registered, p, partnerP).Some? && WebhookExecutor(registered, q, partnerQ).Some?
    ensures BuildCallbackLockKey(WebhookExecutor(registered, p, partnerP).value.partner, idP) ==
            BuildCallbackLockKey(WebhookExecutor(registered, q, partnerQ).value.partner, idQ)
            <==> SameLetters(partnerP, partnerQ) && idP == idQ
  {
    hide WebhookExecutor, BuildCallbackLockKey, SameLetters, NoLowerCase;
    WebhookPartner(registered, p, partnerP);
    WebhookPartner(registered, q, partnerQ);
    var nameP := WebhookExecutor(registered, p, partnerP).value.partner;
    var nameQ := WebhookExecutor(registered, q, partnerQ).value.partner;
    LockKeysSeparate(nameP, idP, nameQ, idQ);
    SameName(nameP, nameQ);
    ContendByLetters(nameP, partnerP, nameQ, partnerQ);
  }

  lemma SameName(p: string, q: string)
    requires NoLowerCase(p) && NoLowerCase(q)
    ensures SameLetters(p, q) <==> p == q
  {
    if SameLetters(p, q) {
      CapitalNamesAreFixed(p, q);
    }
  }

  lemma ContendByLetters(nameP: string, p: string, nameQ: string, q: string)
    requires SameLetters(nameP, p) && SameLetters(nameQ, q)
    ensures SameLetters(nameP, nameQ) <==> SameLetters(p, q)
  {
    UpperIffSameLetters(nameP, p);
    UpperIffSameLetters(nameQ, q);
    UpperIffSameLetters(nameP, nameQ);
    UpperIffSameLetters(p, q);
  }

  // ---------- The three shipped executors ----------

  /** The registrations of the shipped application. */
  predicate Shipped(registered: seq<BasePaymentExecutor>) {
    && |registered| == 3
    && registered[0].partner == "BRITAM" && registered[0].channel == "MPESA"
    && registered[1].partner == "APA" && registered[1].channel == "MPESA"
    && registered[2].partner == "BRITAM" && registered[2].channel == "AIRTEL"
  }

  /** Who serves a partner on a channel. */
  function ShippedExecutor(registered: seq<BasePaymentExecutor>, partnerId: string, channel: string)
    : Option<BasePaymentExecutor>
    requires |registered| == 3
  {
    if channel == "MPESA" && SameLetters(partnerId, "BRITAM") then Some(registered[0])
    else if channel == "MPESA" && SameLetters(partnerId, "APA") then Some(registered[1])
    else if channel == "AIRTEL" && SameLetters(partnerId, "BRITAM") then Some(registered[2])
    else None
  }

  lemma NotBothNames(partnerId: string)
    ensures !(SameLetters(partnerId, "BRITAM") && SameLetters(partnerId, "APA"))
  {
  }

  /** Every lookup in the shipped registry, on any channel. */
  lemma ShippedLookup(registered: seq<BasePaymentExecutor>, partnerId: string, channel: string)
    requires Shipped(registered)
    ensures LastFor(registered, ExecutorKey(partnerId, channel)) == ShippedExecutor(registered, partnerId, channel)
  {
    hide LastFor, ExecutorKey, SameLetters;
    var key := ExecutorKey(partnerId, channel);
    LastForIsLast(registered, key);
    forall i | 0 <= i < 3
      ensures KeyOf(registered[i]) == key <==> registered[i].channel == channel && SameLetters(partnerId, registered[i].partner)
    {
      ShippedKey(registered[i], partnerId, channel);
    }
    NotBothNames(partnerId);
    hide KeyOf;
    if LastFor(registered, key).Some? {
      var i :| IsLast(registered, key, i) && registered[i] == LastFor(registered, key).value;
    }
  }

  lemma ShippedKey(e: BasePaymentExecutor, partnerId: string, channel: string)
    requires '_' !in e.partner && '_' !in e.channel
    ensures KeyOf(e) == ExecutorKey(partnerId, channel) <==> e.channel == channel && SameLetters(partnerId, e.partner)
  {
    hide SameLetters, ExecutorKey;
    if KeyOf(e) == ExecutorKey(partnerId, channel) {
      PlainKeyIsPlain(partnerId, channel, e.partner, e.channel);
    }
    if '_' !in channel {
      KeysSeparate(partnerId, channel, e.partner, e.channel);
    }
  }

  /** The body names M-Pesa, or nothing. */
  predicate MpesaBody(p: WebhookPayload) {
    || Given(p.merchantRequestId) || Given(p.checkoutRequestId)
    || !(Given(p.airtelTransactionId) || Given(p.airtelMoneyId))
  }

  /** A webhook is dispatched by its partner's letters and by the channel fields of its body. */
  lemma ShippedWebhook(registered: seq<BasePaymentExecutor>, p: WebhookPayload, partnerId: string)
    requires Shipped(registered)
    ensures WebhookExecutor(registered, p, partnerId) ==
            ShippedExecutor(registered, partnerId, if MpesaBody(p) then "MPESA" else "AIRTEL")
  {
    ShippedLookup(registered, partnerId, if MpesaBody(p) then "MPESA" else "AIRTEL");
    WebhookKey(partnerId, if MpesaBody(p) then "MPESA" else "AIRTEL");
    hide LastFor, ExecutorKey, ShippedExecutor;
  }

  // ---------- The use cases ----------

  /** A zero amount or an empty currency in the result falls back to the row's. */
  function Filled(result: Response, row: Row): Response {
    result.(amount := if result.amount != 0.0 then result.amount else row.amount,
            currency := if result.currency != "" then result.currency else row.currency)
  }

  /** The use case looks the row up at one moment and the status check answers at a later one, with anything in between.
      Unless the row was created again, the filled response carries the status the check found or stored, and the amount
      and currency of the row looked up, which are those of an initiation. */
  lemma CheckPaymentsAreInitiated(before: seq<Label>, after: seq<Label>, id: string, i: nat)
    requires FindById(Run(INIT, before).shared.rows, id).Some?
    requires var t := Run(INIT, before + after);
             && i < |t.handlers| && t.handlers[i].Check? && t.handlers[i].id == id && ResponseOf(t.handlers[i]).Some?
             && NeverRecreated(t.log, FindById(Run(INIT, before).shared.rows, id).value.reference)
    ensures var row := FindById(Run(INIT, before).shared.rows, id).value;
            var t := Run(INIT, before + after);
            var answer := Filled(ResponseOf(t.handlers[i]).value, row);
            && answer.transactionId == id && answer.amount == row.amount && answer.currency == row.currency
            && AnswersStatus(t.handlers[i], answer.status)
            && row.reference in t.shared.rows && SameFacts(row, t.shared.rows[row.reference])
            && exists j :: 0 <= j < |t.handlers| && Fulfils(t.shared.rows[row.reference], t.handlers[j])
  {
    var s, t := Run(INIT, before), Run(INIT, before + after);
    var row := FindById(s.shared.rows, id).value;
    EmptyTable();
    hide Run, FindById, WellFormed, ResponseOf, Fulfils;
    RunConcat(INIT, before, after);
    TableStaysWellFormed(INIT, before);
    TableStaysWellFormed(INIT, before + after);
    LookupsArePermanent(s, after, id);
    FoundAtItsReference(s.shared.rows, id);
    FoundAtItsReference(t.shared.rows, id);
    FactsArePermanent(s, after, row.reference);
    ResponseFromRow(t.handlers[i]);
    ResponsesAreInitiated(before + after, i);
  }

  datatype WebhookResponse = WebhookResponse(transactionId: string, status: string, processed: bool)

  /** The answer to a webhook in the shipped application: by the partner's letters, the fields of the body, and what the
      table and the locks held. */
  ghost function ShippedAnswer(registered: seq<BasePaymentExecutor>, p: WebhookPayload, id: string, status: string, env: Env,
                               rows: Table, locks: map<string, Lock>): Result<WebhookResponse, Error>
    requires |registered| == 3 && p.partnerId.Some? && env.CallbackEnv?
  {
    match ShippedExecutor(registered, p.partnerId.value, if MpesaBody(p) then "MPESA" else "AIRTEL")
    case None => Failure(PartnerExecutorNotFound)
    case Some(e) =>
      match AnswerToCallback(rows, locks, e.partner, id, status, env)
      case Success(answer) => Success(WebhookResponse(answer.transactionId, answer.status, true))
      case Failure(error) => Failure(error)
  }

  class PaymentsUseCaseImpl {
    const builder: PaymentExecutorBuilder
    const payments: PaymentRepositoryImpl
    const redis: RedisClient
    const rabbit: RabbitMQService
    const aspin: AspinAdapter
    const queue: QueueService
    const metrics: MetricsService

    /** Every executor was given the same stores and services. */
    ghost predicate Valid()
      reads builder, payments
    {
      && builder.Valid() && WellFormed(payments.rows)
      && forall i :: 0 <= i < |builder.registered| ==>
           var e := builder.registered[i];
           && e.payments == payments && e.redis == redis && e.rabbit == rabbit
           && e.aspin == aspin && e.queue == queue && e.metrics == metrics
    }

    constructor (builder: PaymentExecutorBuilder, payments: PaymentRepositoryImpl, redis: RedisClient,
                 rabbit: RabbitMQService, aspin: AspinAdapter, queue: QueueService, metrics: MetricsService)
      ensures this.builder == builder && this.payments == payments && this.redis == redis && this.rabbit == rabbit
      ensures this.aspin == aspin && this.queue == queue && this.metrics == metrics
    {
      this.builder := builder;
      this.payments, this.redis, this.rabbit := payments, redis, rabbit;
      this.aspin, this.queue, this.metrics := aspin, queue, metrics;
    }

    ghost function View(): Shared
      reads payments, redis, rabbit, aspin, queue, metrics
    {
      SharedState(payments, redis, rabbit, aspin, queue, metrics)
    }

    method InitiatePayment(payload: Request, env: Env, ghost me: nat) returns (r: Result<Response, Error>)
      requires Valid() && env.InitiateEnv?
      modifies payments, queue, metrics
      ensures Valid()
      ensures match LastFor(builder.registered, ExecutorKey(payload.partnerId, payload.channel))
              case None => r == Failure(PartnerExecutorNotFound) && View() == old(View())
              case Some(e) =>
                var h := NewInitiate(payload, e.channel);
                var f := Finish(old(View()).(metrics := CountSpawn(old(View()).metrics, h)), me, h, env);
                View() == f.shared && r == ResultOf(f.handler)
      ensures Shipped(builder.registered) ==>
                if ShippedExecutor(builder.registered, payload.partnerId, payload.channel).None?
                then r == Failure(PartnerExecutorNotFound)
                else r == AnswerToInitiation(payload, payload.reference in old(payments.rows), env)
    {
      hide Finish, LastFor, ResultOf, ShippedExecutor, AnswerToInitiation;
      if Shipped(builder.registered) {
        ShippedLookup(builder.registered, payload.partnerId, payload.channel);
      }
      hide Shipped;
      var executor :- builder.GetExecutor(payload.partnerId, payload.channel);
      FoundUnderItsKey(builder.registered, ExecutorKey(payload.partnerId, payload.channel));
      r := executor.Initiate(payload, env, me);
    }

    method HandleWebhook(payload: WebhookPayload, env: Env, me: nat) returns (r: Result<WebhookResponse, Error>)
      requires Valid() && env.CallbackEnv? && ExtractTransactionId(payload).Some?
      modifies payments, redis`keys, rabbit`attempts, aspin, metrics
      ensures Valid()
      ensures payload.partnerId.None? ==> r == Failure(MalformedPayload) && View() == old(View())
      ensures payload.partnerId.Some? ==>
              match WebhookExecutor(builder.registered, payload, payload.partnerId.value)
              case None => r == Failure(PartnerExecutorNotFound) && View() == old(View())
              case Some(e) =>
                var f := Finish(old(View()), me, NewCallback(e.partner, payload), old(Effective(rabbit, env)));
                && View() == f.shared
                && r == match ResultOf(f.handler)
                        case Success(response) => Success(WebhookResponse(response.transactionId, response.status, true))
                        case Failure(error) => Failure(error)
      ensures Shipped(builder.registered) && payload.partnerId.Some? ==>
                forall id, status :: GivesId(payload, id) && ReportsStatus(payload, status) ==>
                  r == ShippedAnswer(builder.registered, payload, id, status, env, old(payments.rows), old(redis.keys))
    {
      hide Finish, LastFor, ResultOf, ExecutorKey, ExtractTransactionId, AnswerToCallback, ReportsStatus, GivesId;
      if Shipped(builder.registered) && payload.partnerId.Some? {
        ShippedWebhook(builder.registered, payload, payload.partnerId.value);
      }
      hide Shipped, ShippedExecutor;
      if payload.partnerId.None? {
        return Failure(MalformedPayload);
      }
      var channel := DetermineChannelFromPayload(payload);
      var executor :- builder.GetExecutor(Upper(payload.partnerId.value), channel);
      FoundUnderItsKey(builder.registered, ExecutorKey(Upper(payload.partnerId.value), channel));
      var result :- executor.HandleCallback(payload, env, me);
      r := Success(WebhookResponse(result.transactionId, result.status, true));
    }

    method CheckPayment(id: string, lookup: Outcome, env: Env, ghost me: nat) returns (r: Result<Response, Error>)
      requires Valid() && env.CheckEnv?
      modifies payments, rabbit`attempts, aspin
      ensures Valid()
      ensures lookup.Throws? ==> r == Failure(Unavailable) && View() == old(View())
      ensures !lookup.Throws? ==>
              match FindById(old(payments.rows), id)
              case None => r == Failure(TransactionNotFound) && View() == old(View())
              case Some(row) =>
                match LastFor(builder.registered, ExecutorKey(row.partnerId, row.channel))
                case None => r == Failure(PartnerExecutorNotFound) && View() == old(View())
                case Some(e) =>
                  var f := Finish(old(View()), me, NewCheck(id), old(Effective(rabbit, env)));
                  && View() == f.shared
                  && r == match ResultOf(f.handler)
                          case Success(response) => Success(Filled(response, row))
                          case Failure(error) => Failure(error)
      ensures r.Success? ==>
                var found := FindById(old(payments.rows), id);
                && found.Some? && r.value.transactionId == id
                && env.query.Answer? && env.query.word == Some(r.value.status)
                && r.value.amount == found.value.amount && r.value.currency == found.value.currency
      ensures var found := FindById(old(payments.rows), id);
              !lookup.Throws? && found.Some? &&
              LastFor(builder.registered, ExecutorKey(found.value.partnerId, found.value.channel)).Some? ==>
                r == AnswerToCheck(found, id, env)
    {
      hide Finish, LastFor, ResultOf, ExecutorKey, FindById;
      var transaction :- payments.FindByTransactionId(id, lookup);
      if transaction.None? {
        return Failure(TransactionNotFound);
      }
      var row := transaction.value;
      var executor :- builder.GetExecutor(row.partnerId, row.channel);
      FoundUnderItsKey(builder.registered, ExecutorKey(row.partnerId, row.channel));
      var result :- executor.StatusCheck(id, env, me);
      r := Success(Filled(result, row));
    }
  }
}
