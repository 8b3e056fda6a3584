/** RabbitMQ and Aspin can fail in any pattern: nothing else notices. */
module DeliveryIndependence {
  import opened PaymentDomain
  import opened PaymentTable
  import opened World
  import opened Protocol

  function BlindAttempts(broker: seq<Attempt>): seq<Attempt> {
    seq(|broker|, i requires 0 <= i < |broker| => broker[i].(accepted := false))
  }

  function BlindNotices(notices: seq<Notice>): seq<Notice> {
    seq(|notices|, i requires 0 <= i < |notices| => notices[i].(delivered := false))
  }

  /** The shared state with the two delivery flags erased. */
  function Blind(sh: Shared): Shared {
    sh.(broker := BlindAttempts(sh.broker), notices := BlindNotices(sh.notices))
  }

  function BlindState(s: State): State {
    s.(shared := Blind(s.shared))
  }

  /** The handler's next await is a publish or a notice. */
  predicate AtDelivery(h: Handler) {
    || (h.Callback? && (h.cpc.AwaitPublish? || h.cpc.AwaitNotify?))
    || (h.Check? && (h.spc.AwaitCheckPublish? || h.spc.AwaitCheckNotify?))
  }

  lemma BlindAppend(broker: seq<Attempt>, a: Attempt, notices: seq<Notice>, n: Notice)
    ensures BlindAttempts(broker + [a]) == BlindAttempts(broker) + [a.(accepted := false)]
    ensures BlindNotices(notices + [n]) == BlindNotices(notices) + [n.(delivered := false)]
  {
  }

  predicate SameBlind(a: Stepped, b: Stepped) {
    Blind(a.shared) == Blind(b.shared) && a.handler == b.handler && a.event == b.event
  }

  lemma BlindCallbackDelivery(sh: Shared, sh': Shared, me: nat, h: Handler, o: Outcome, o': Outcome)
    requires Blind(sh) == Blind(sh') && h.Callback? && AtDelivery(h)
    ensures SameBlind(CallbackStep(sh, me, h, o), CallbackStep(sh', me, h, o'))
  {
    hide ExtractTransactionId, BuildCallbackLockKey, RoutingKey, BlindAttempts, BlindNotices;
    var row, status := h.cpc.row, h.cpc.status;
    BlindAppend(sh.broker, AttemptFor(row, status, o.Ok?), sh.notices, NoticeFor(row, status, o.Ok?));
    BlindAppend(sh'.broker, AttemptFor(row, status, o'.Ok?), sh'.notices, NoticeFor(row, status, o'.Ok?));
  }

  lemma BlindCheckDelivery(sh: Shared, sh': Shared, me: nat, h: Handler, o: Outcome, o': Outcome)
    requires Blind(sh) == Blind(sh') && h.Check? && AtDelivery(h)
    ensures SameBlind(CheckStep(sh, me, h, o), CheckStep(sh', me, h, o'))
  {
    hide RoutingKey, BlindAttempts, BlindNotices;
    var row, word := h.spc.row, h.spc.word;
    BlindAppend(sh.broker, AttemptFor(row, word, o.Ok?), sh.notices, NoticeFor(row, word, o.Ok?));
    BlindAppend(sh'.broker, AttemptFor(row, word, o'.Ok?), sh'.notices, NoticeFor(row, word, o'.Ok?));
  }

  lemma BlindDelivery(sh: Shared, sh': Shared, me: nat, h: Handler, o: Outcome, o': Outcome)
    requires Blind(sh) == Blind(sh') && AtDelivery(h)
    ensures SameBlind(HandlerStep(sh, me, h, o), HandlerStep(sh', me, h, o'))
  {
    hide CallbackStep, CheckStep, SameBlind, Blind;
    if h.Callback? {
      BlindCallbackDelivery(sh, sh', me, h, o, o');
    } else {
      BlindCheckDelivery(sh, sh', me, h, o, o');
    }
  }

  /** Any other step neither reads nor writes the broker or the notices. */
  lemma StepIgnoresDelivery(sh: Shared, me: nat, h: Handler, o: Outcome, broker: seq<Attempt>, notices: seq<Notice>)
    requires !AtDelivery(h)
    ensures var n := HandlerStep(sh, me, h, o);
            HandlerStep(sh.(broker := broker, notices := notices), me, h, o) ==
            n.(shared := n.shared.(broker := broker, notices := notices))
  {
    hide ExtractTransactionId, BuildCallbackLockKey, RoutingKey, FindById, UpdateWhere, Upsert, ExtractStatusFromCallback;
    if h.Callback? {
      CallbackIgnoresDelivery(sh, me, h, o, broker, notices);
    }
  }

  lemma CallbackIgnoresDelivery(sh: Shared, me: nat, h: Handler, o: Outcome, broker: seq<Attempt>, notices: seq<Notice>)
    requires h.Callback? && !AtDelivery(h)
    ensures var n := CallbackStep(sh, me, h, o);
            CallbackStep(sh.(broker := broker, notices := notices), me, h, o) ==
            n.(shared := n.shared.(broker := broker, notices := notices))
  {
    hide ExtractTransactionId, BuildCallbackLockKey, RoutingKey, FindById, UpdateWhere, Upsert, ExtractStatusFromCallback,
      LockStep, ReleaseStep;
    if h.cpc.AwaitRelease? {
      ReleaseIgnoresDelivery(sh, me, h, o, broker, notices);
    } else if h.cpc.AwaitLock? {
      LockIgnoresDelivery(sh, me, h, o, broker, notices);
    }
  }

  lemma LockIgnoresDelivery(sh: Shared, me: nat, h: Handler, o: Outcome, broker: seq<Attempt>, notices: seq<Notice>)
    requires h.Callback? && h.cpc.AwaitLock?
    ensures var n := LockStep(sh, me, h, o);
            LockStep(sh.(broker := broker, notices := notices), me, h, o) ==
            n.(shared := n.shared.(broker := broker, notices := notices))
  {
    hide ExtractTransactionId, BuildCallbackLockKey;
  }

  lemma ReleaseIgnoresDelivery(sh: Shared, me: nat, h: Handler, o: Outcome, broker: seq<Attempt>, notices: seq<Notice>)
    requires h.Callback? && h.cpc.AwaitRelease?
    ensures var n := ReleaseStep(sh, me, h, o);
            ReleaseStep(sh.(broker := broker, notices := notices), me, h, o) ==
            n.(shared := n.shared.(broker := broker, notices := notices))
  {
    hide ExtractTransactionId, BuildCallbackLockKey;
  }

  lemma BlindStep(sh: Shared, sh': Shared, me: nat, h: Handler, o: Outcome, o': Outcome)
    requires Blind(sh) == Blind(sh') && (o == o' || AtDelivery(h))
    ensures SameBlind(HandlerStep(sh, me, h, o), HandlerStep(sh', me, h, o'))
  {
    if AtDelivery(h) {
      BlindDelivery(sh, sh', me, h, o, o');
    } else {
      hide HandlerStep, BlindAttempts, BlindNotices;
      StepIgnoresDelivery(sh, me, h, o, sh'.broker, sh'.notices);
      StepIgnoresDelivery(sh, me, h, o, sh.broker, sh.notices);
      assert sh' == sh.(broker := sh'.broker, notices := sh'.notices);
      assert sh == sh.(broker := sh.broker, notices := sh.notices);
    }
  }

  lemma BlindApply(s: State, t: State, l: Label, m: Label)
    requires BlindState(s) == BlindState(t)
    requires l == m || (l.Advance? && m.Advance? && l.who == m.who && Active(s, l.who) && AtDelivery(s.handlers[l.who]))
    ensures BlindState(Apply(s, l)) == BlindState(Apply(t, m))
  {
    hide HandlerStep, BlindAttempts, BlindNotices, AtDelivery, FindById, Bind, IsFresh;
    match l
    case Advance(i, o) =>
      if Active(s, i) {
        BlindStep(s.shared, t.shared, i, s.handlers[i], o, m.outcome);
      }
    case _ =>
  }

  /** The same run with every publish accepted and every notice delivered. */
  ghost function AllDelivered(s: State, labels: seq<Label>): seq<Label>
    decreases |labels|
  {
    if labels == [] then []
    else
      var before, l := labels[..|labels| - 1], labels[|labels| - 1];
      var mid := Run(s, before);
      AllDelivered(s, before) +
      [if l.Advance? && Active(mid, l.who) && AtDelivery(mid.handlers[l.who]) then Advance(l.who, Ok) else l]
  }

  /** For any pattern of rejected publishes and failed notices, the run in which all of them succeed passes through the
      same rows, locks, counters, jobs, handlers, responses and history; only the two delivery flags differ. */
  lemma {:induction false} DeliveryFailuresAreInvisible(s: State, labels: seq<Label>)
    ensures |AllDelivered(s, labels)| == |labels|
    ensures BlindState(Run(s, AllDelivered(s, labels))) == BlindState(Run(s, labels))
    decreases |labels|
  {
    if labels != [] {
      hide BlindState, Apply, Active, AtDelivery;
      var before, l := labels[..|labels| - 1], labels[|labels| - 1];
      var all := AllDelivered(s, labels);
      DeliveryFailuresAreInvisible(s, before);
      assert all[..|all| - 1] == AllDelivered(s, before);
      BlindApply(Run(s, before), Run(s, AllDelivered(s, before)), l, all[|all| - 1]);
    }
  }
}
