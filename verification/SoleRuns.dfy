/** A handler that runs from start to end without interleaving. The executor's methods are proved against `Finish`,
    and what `Finish` computes is a run of the protocol. */
module SoleRuns {
  import opened Wrappers
  import opened PaymentDomain
  import opened PaymentTable
  import opened World
  import opened Protocol
  import opened ControlFlow

  /** How each await of a handler will end. */
  datatype Env =
    | CallbackEnv(lock: Outcome, missRead: Outcome, read: Outcome, config: Outcome, update: Outcome,
                  publish: Outcome, notify: Outcome, release: Outcome)
    | CheckEnv(find: Outcome, query: Outcome, store: Outcome, publish: Outcome, notify: Outcome)
    | InitiateEnv(lookup: Outcome, create: Outcome, enqueue: Outcome)
  {
    function At(h: Handler): Outcome {
      match h
      case Callback(_, _, _, pc) => if CallbackEnv? then AtCallback(pc) else Ok
      case Check(_, pc) => if CheckEnv? then AtCheck(pc) else Ok
      case Initiate(_, _, pc) => if InitiateEnv? then AtInitiate(pc) else Ok
    }

    function AtCallback(pc: CallbackPc): Outcome
      requires CallbackEnv?
    {
      match pc
      case AwaitLock => lock
      case AwaitMissRead => missRead
      case AwaitRead => read
      case AwaitConfig(_) => config
      case AwaitUpdate(_, _) => update
      case AwaitPublish(_, _) => publish
      case AwaitNotify(_, _) => notify
      case AwaitRelease(_) => release
      case CallbackDone(_, _) => Ok
    }

    function AtCheck(pc: CheckPc): Outcome
      requires CheckEnv?
    {
      match pc
      case AwaitFind => find
      case AwaitQuery(_) => query
      case AwaitStore(_, _) => store
      case AwaitCheckPublish(_, _) => publish
      case AwaitCheckNotify(_, _) => notify
      case CheckDone(_) => Ok
    }

    function AtInitiate(pc: InitiatePc): Outcome
      requires InitiateEnv?
    {
      match pc
      case AwaitExisting => lookup
      case AwaitCreate => create
      case AwaitEnqueue => enqueue
      case InitiateDone(_) => Ok
    }
  }

  function StepsLeft(h: Handler): nat {
    match h
    case Callback(_, _, _, pc) =>
      (match pc
       case AwaitLock => 7
       case AwaitMissRead => 1
       case AwaitRead => 6
       case AwaitConfig(_) => 5
       case AwaitUpdate(_, _) => 4
       case AwaitPublish(_, _) => 3
       case AwaitNotify(_, _) => 2
       case AwaitRelease(_) => 1
       case CallbackDone(_, _) => 0)
    case Check(_, pc) =>
      (match pc
       case AwaitFind => 5
       case AwaitQuery(_) => 4
       case AwaitStore(_, _) => 3
       case AwaitCheckPublish(_, _) => 2
       case AwaitCheckNotify(_, _) => 1
       case CheckDone(_) => 0)
    case Initiate(_, _, pc) =>
      (match pc
       case AwaitExisting => 3
       case AwaitCreate => 2
       case AwaitEnqueue => 1
       case InitiateDone(_) => 0)
  }

  /** The same call, at another program counter. */
  predicate SameTask(h: Handler, next: Handler) {
    match h
    case Callback(partner, payload, _, _) => next.Callback? && next.partner == partner && next.payload == payload
    case Check(id, _) => next.Check? && next.id == id
    case Initiate(request, channel, _) => next.Initiate? && next.request == request && next.channel == channel
  }

  lemma StepDecreases(sh: Shared, me: nat, h: Handler, o: Outcome)
    requires !h.Done()
    ensures StepsLeft(HandlerStep(sh, me, h, o).handler) < StepsLeft(h)
    ensures SameTask(h, HandlerStep(sh, me, h, o).handler)
  {
    if h.Initiate? {
      hide FindById, Upsert;
    } else {
      StepShape(sh, me, h, o);
      MovesDecrease(me, h, HandlerStep(sh, me, h, o).handler, HandlerStep(sh, me, h, o).event);
    }
  }

  lemma MovesDecrease(me: nat, h: Handler, next: Handler, event: Option<Event>)
    requires !h.Initiate? && !h.Done() && Moves(me, h, next, event)
    ensures StepsLeft(next) < StepsLeft(h) && SameTask(h, next)
  {
    hide ExtractTransactionId;
  }

  datatype Finished = Finished(shared: Shared, handler: Handler)

  /** The handler takes all its remaining steps. */
  ghost function Finish(sh: Shared, me: nat, h: Handler, env: Env): (f: Finished)
    ensures f.handler.Done() && SameTask(h, f.handler)
    decreases StepsLeft(h)
  {
    if h.Done() then Finished(sh, h)
    else
      var n := HandlerStep(sh, me, h, env.At(h));
      StepDecreases(sh, me, h, env.At(h));
      Finish(n.shared, me, n.handler, env)
  }

  /** Unfolding `Finish` at one await of a callback. */
  lemma TakeCallbackStep(sh: Shared, me: nat, h: Handler, env: Env, n: Stepped)
    requires h.Callback? && !h.Done() && env.CallbackEnv?
    requires n == CallbackStep(sh, me, h, env.AtCallback(h.cpc))
    ensures Finish(sh, me, h, env) == Finish(n.shared, me, n.handler, env)
  {
    hide CallbackStep;
  }

  lemma TakeLock(sh: Shared, me: nat, h: Handler, env: Env, n: Stepped)
    requires h.Callback? && h.cpc.AwaitLock? && env.CallbackEnv?
    requires n == LockStep(sh, me, h, env.lock)
    ensures Finish(sh, me, h, env) == Finish(n.shared, me, n.handler, env)
  {
    hide LockStep, Finish;
    TakeCallbackStep(sh, me, h, env, n);
  }

  lemma TakeMissRead(sh: Shared, me: nat, h: Handler, env: Env, n: Stepped)
    requires h.Callback? && h.cpc.AwaitMissRead? && env.CallbackEnv?
    requires n == MissReadStep(sh, me, h, env.missRead)
    ensures Finish(sh, me, h, env) == Finish(n.shared, me, n.handler, env)
  {
    hide MissReadStep, Finish;
    TakeCallbackStep(sh, me, h, env, n);
  }

  lemma TakeRead(sh: Shared, me: nat, h: Handler, env: Env, n: Stepped)
    requires h.Callback? && h.cpc.AwaitRead? && env.CallbackEnv?
    requires n == ReadStep(sh, me, h, env.read)
    ensures Finish(sh, me, h, env) == Finish(n.shared, me, n.handler, env)
  {
    hide ReadStep, Finish;
    TakeCallbackStep(sh, me, h, env, n);
  }

  lemma TakeConfig(sh: Shared, me: nat, h: Handler, env: Env, n: Stepped)
    requires h.Callback? && h.cpc.AwaitConfig? && env.CallbackEnv?
    requires n == ConfigStep(sh, me, h, env.config)
    ensures Finish(sh, me, h, env) == Finish(n.shared, me, n.handler, env)
  {
    hide ConfigStep, Finish;
    TakeCallbackStep(sh, me, h, env, n);
  }

  lemma TakeUpdate(sh: Shared, me: nat, h: Handler, env: Env, n: Stepped)
    requires h.Callback? && h.cpc.AwaitUpdate? && env.CallbackEnv?
    requires n == UpdateStep(sh, me, h, env.update)
    ensures Finish(sh, me, h, env) == Finish(n.shared, me, n.handler, env)
  {
    hide UpdateStep, Finish;
    TakeCallbackStep(sh, me, h, env, n);
  }

  lemma TakeRelease(sh: Shared, me: nat, h: Handler, env: Env, n: Stepped)
    requires h.Callback? && h.cpc.AwaitRelease? && env.CallbackEnv?
    requires n == ReleaseStep(sh, me, h, env.release)
    ensures Finish(sh, me, h, env) == Finish(n.shared, me, n.handler, env)
  {
    hide ReleaseStep, Finish;
    TakeCallbackStep(sh, me, h, env, n);
  }

  lemma TakeCheckStep(sh: Shared, me: nat, h: Handler, env: Env, n: Stepped)
    requires h.Check? && !h.Done() && env.CheckEnv?
    requires n == CheckStep(sh, me, h, env.AtCheck(h.spc))
    ensures Finish(sh, me, h, env) == Finish(n.shared, me, n.handler, env)
  {
    hide CheckStep;
  }

  lemma TakeInitiateStep(sh: Shared, me: nat, h: Handler, env: Env, n: Stepped)
    requires h.Initiate? && !h.Done() && env.InitiateEnv?
    requires n == InitiateStep(sh, me, h, env.AtInitiate(h.ipc))
    ensures Finish(sh, me, h, env) == Finish(n.shared, me, n.handler, env)
  {
    hide InitiateStep;
  }

  lemma NothingLeft(sh: Shared, me: nat, h: Handler, env: Env)
    ensures h.Done() ==> Finish(sh, me, h, env) == Finished(sh, h)
  {
  }

  /** The labels of those steps. */
  ghost function Script(sh: Shared, me: nat, h: Handler, env: Env): seq<Label>
    decreases StepsLeft(h)
  {
    if h.Done() then []
    else
      var n := HandlerStep(sh, me, h, env.At(h));
      StepDecreases(sh, me, h, env.At(h));
      [Advance(me, env.At(h))] + Script(n.shared, me, n.handler, env)
  }

  /** What those steps log. */
  ghost function Events(sh: Shared, me: nat, h: Handler, env: Env): seq<Event>
    decreases StepsLeft(h)
  {
    if h.Done() then []
    else
      var n := HandlerStep(sh, me, h, env.At(h));
      StepDecreases(sh, me, h, env.At(h));
      Logged([], n.event) + Events(n.shared, me, n.handler, env)
  }

  lemma RunCons(s: State, l: Label, labels: seq<Label>)
    ensures Run(s, [l] + labels) == Run(Apply(s, l), labels)
  {
    hide Apply;
    RunConcat(s, [l], labels);
    assert [l][..0] == [];
    assert Run(s, [l]) == Apply(Run(s, []), l);
  }

  /** Taking a handler's remaining steps in one go is one of the interleavings: from any state in which it is live, the
      protocol reaches exactly the state `Finish` computes, with the events of those steps logged and every other
      handler untouched. */
  lemma {:induction false} SoleRunIsARun(s: State, me: nat, env: Env)
    requires me < |s.handlers| && me !in s.crashed
    ensures var h := s.handlers[me];
            var f := Finish(s.shared, me, h, env);
            Run(s, Script(s.shared, me, h, env)) ==
            s.(shared := f.shared, handlers := s.handlers[me := f.handler], log := s.log + Events(s.shared, me, h, env))
    decreases StepsLeft(s.handlers[me])
  {
    hide HandlerStep, Env.At, StepsLeft;
    var h := s.handlers[me];
    if h.Done() {
      assert s.handlers[me := h] == s.handlers;
      assert s.log + [] == s.log;
    } else {
      var o := env.At(h);
      var n := HandlerStep(s.shared, me, h, o);
      var next := Apply(s, Advance(me, o));
      StepDecreases(s.shared, me, h, o);
      RunCons(s, Advance(me, o), Script(n.shared, me, n.handler, env));
      SoleRunIsARun(next, me, env);
      assert s.handlers[me := n.handler][me := Finish(n.shared, me, n.handler, env).handler] ==
             s.handlers[me := Finish(n.shared, me, n.handler, env).handler];
      LoggedConcat(s.log, n.event, Events(n.shared, me, n.handler, env));
    }
  }

  lemma LoggedConcat(log: seq<Event>, event: Option<Event>, events: seq<Event>)
    ensures Logged(log, event) + events == log + (Logged([], event) + events)
  {
  }

  /** The labels of a handler that starts and runs to its end. */
  ghost function Solo(s: State, h: Handler, env: Env): seq<Label> {
    [Spawn(h)] + Script(Started(s.shared, h), |s.handlers|, h, env)
  }

  /** The shared state once the handler has started. */
  function Started(sh: Shared, h: Handler): Shared {
    sh.(metrics := CountSpawn(sh.metrics, h))
  }

  /** No label has crashed a handler that does not exist yet. */
  predicate NoneCrashedAhead(s: State) {
    forall i :: i in s.crashed ==> i < |s.handlers|
  }

  lemma SoloIsARun(s: State, h: Handler, env: Env)
    requires IsFresh(h) && NoneCrashedAhead(s)
    ensures var f := Finish(Started(s.shared, h), |s.handlers|, h, env);
            Run(s, Solo(s, h, env)) ==
            s.(shared := f.shared, handlers := s.handlers + [f.handler],
               log := s.log + Events(Started(s.shared, h), |s.handlers|, h, env))
  {
    hide Finish, Script, Events, IsFresh, Run;
    var t := s.(shared := Started(s.shared, h), handlers := s.handlers + [h]);
    assert Apply(s, Spawn(h)) == t;
    RunCons(s, Spawn(h), Script(t.shared, |s.handlers|, h, env));
    SoleRunIsARun(t, |s.handlers|, env);
    var f := Finish(t.shared, |s.handlers|, h, env);
    assert t.handlers[|s.handlers| := f.handler] == s.handlers + [f.handler];
  }

  lemma StepIgnoresName(sh: Shared, me: nat, other: nat, h: Handler, o: Outcome)
    requires !h.Callback?
    ensures HandlerStep(sh, me, h, o).shared == HandlerStep(sh, other, h, o).shared
    ensures HandlerStep(sh, me, h, o).handler == HandlerStep(sh, other, h, o).handler
  {
    hide FindById, UpdateWhere, Upsert, RoutingKey;
  }

  /** Status checks and initiations do the same under any name; callbacks leave theirs in the history of the lock. */
  lemma {:induction false} FinishIgnoresName(sh: Shared, me: nat, other: nat, h: Handler, env: Env)
    requires !h.Callback?
    ensures Finish(sh, me, h, env) == Finish(sh, other, h, env)
    decreases StepsLeft(h)
  {
    hide HandlerStep, Env.At, StepsLeft;
    if !h.Done() {
      var o := env.At(h);
      var n := HandlerStep(sh, me, h, o);
      StepIgnoresName(sh, me, other, h, o);
      StepDecreases(sh, me, h, o);
      FinishIgnoresName(n.shared, me, other, n.handler, env);
    }
  }
}
