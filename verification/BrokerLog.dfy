/** What RabbitMQ is handed, publish by publish, is what the history says was published. */
module BrokerLog {
  import opened Wrappers
  import opened PaymentDomain
  import opened PaymentTable
  import opened World
  import opened Protocol
  import opened ControlFlow
  import opened Coherence
  import opened Identity

  predicate IsPublish(e: Event) {
    e.Did? && (e.act.PublishedCallback? || e.act.PublishedCheck?)
  }

  /** The publishes of the log, in order. */
  function PublishesIn(log: seq<Event>): (events: seq<Event>)
    ensures forall k :: 0 <= k < |events| ==> IsPublish(events[k])
    decreases |log|
  {
    if log == [] then []
    else PublishesIn(log[..|log| - 1]) + if IsPublish(log[|log| - 1]) then [log[|log| - 1]] else []
  }

  /** The attempt is about the event's transaction and status, under the routing key of that status. */
  predicate Carries(a: Attempt, e: Event)
    requires IsPublish(e)
  {
    && a.event.transactionId == Some(e.id)
    && a.event.status == e.act.status
    && a.routingKey == "payment." + e.act.status + "." + a.event.partnerId
  }

  ghost predicate InStep(s: State) {
    |s.shared.broker| == |PublishesIn(s.log)| &&
    forall k :: 0 <= k < |s.shared.broker| ==> Carries(s.shared.broker[k], PublishesIn(s.log)[k])
  }

  lemma PublishesLogged(log: seq<Event>, event: Option<Event>)
    ensures PublishesIn(Logged(log, event)) ==
            PublishesIn(log) + if event.Some? && IsPublish(event.value) then [event.value] else []
  {
    if event.Some? {
      assert (log + [event.value])[..|log|] == log;
    }
  }

  /** A step logs a publish exactly when the handler stood before one. */
  lemma PublishesAreLogged(sh: Shared, me: nat, h: Handler, n: Stepped, accepted: bool)
    requires Coherent(h) && Shaped(sh, me, h, n)
    ensures AboutToPublish(h).Some? <==> n.event.Some? && IsPublish(n.event.value)
    ensures AboutToPublish(h).Some? ==>
              Carries(AttemptFor(AboutToPublish(h).value.0, AboutToPublish(h).value.1, accepted), n.event.value)
  {
    if AboutToPublish(h).Some? {
      PublishedStatus(h);
      RoutingKeySpellsStatus(AboutToPublish(h).value.1, AboutToPublish(h).value.0.partnerId);
    }
    hide Effects, ReadsTable, ExtractTransactionId, BuildCallbackLockKey, ExtractStatusFromCallback, RoutingKey, IsTerminal;
  }

  lemma InStepAdvance(s: State, i: nat, o: Outcome)
    requires InStep(s) && AllCoherent(s) && Active(s, i)
    ensures InStep(Apply(s, Advance(i, o)))
  {
    hide HandlerStep, Shaped, AboutToPublish, AttemptFor, IsPublish, Carries, Coherent;
    var n := ApplyAdvance(s, i, o);
    PublishesAreLogged(s.shared, i, s.handlers[i], n, o.Ok?);
    BrokerStep(s.shared, i, s.handlers[i], o);
    PublishesLogged(s.log, n.event);
  }

  lemma InStepStep(s: State, l: Label)
    requires InStep(s) && AllCoherent(s)
    ensures InStep(Apply(s, l))
  {
    hide HandlerStep, AllCoherent, FindById, Bind, Carries, IsFresh;
    match l
    case Advance(i, o) =>
      if Active(s, i) {
        hide InStep, Apply;
        InStepAdvance(s, i, o);
      }
    case Expire(key) => PublishesLogged(s.log, Some(Expired(key)));
    case _ =>
  }

  /** In every reachable state the broker has been handed exactly the publishes of the history, in its order, each with
      the transaction and the status its handler published, under that status's routing key. */
  lemma {:induction false} BrokerMatchesLog(labels: seq<Label>)
    ensures InStep(Run(INIT, labels))
    decreases |labels|
  {
    if labels != [] {
      hide Apply, AllCoherent;
      var before := labels[..|labels| - 1];
      BrokerMatchesLog(before);
      CoherentThroughout(before);
      InStepStep(Run(INIT, before), labels[|labels| - 1]);
    }
  }
}
