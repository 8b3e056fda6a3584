/** The callback lock: `SET NX EX 30` with a constant value, and an unconditional `DEL`. */
module LockSafety {
  import opened Wrappers
  import opened PaymentDomain
  import opened PaymentTable
  import opened World
  import opened Protocol
  import opened ControlFlow
  import opened History

  // ---------- Without a clock: how the lock degrades ----------

  /** The handlers inside the locked region of a key number at most one if the key is set, plus one for every time
      the key has expired. */
  ghost predicate HoldersBounded(s: State, key: string) {
    Tally(s.handlers, Holding(key)) <= (if key in s.shared.locks then 1 else 0) + Occurs(s.log, Expiries(key))
  }

  lemma MovesHold(me: nat, h: Handler, next: Handler, event: Option<Event>, key: string)
    requires Moves(me, h, next, event)
    ensures next.Key() == h.Key()
    ensures event.Some? ==> !Counts(event.value, Expiries(key))
    ensures var acquired := ActOf(event) == Some(Acquired);
            && (next.Holds() <==> if h.Holds() then !next.Done() else acquired)
            && (acquired ==> !h.Holds())
            && (event.Some? && event.value.Did? && event.value.act.Deleted? ==> h.Holds() && !next.Holds())
    ensures Weight(next, Holding(key)) == (if next.Holds() && h.Key() == key then 1 else 0)
    ensures Weight(h, Holding(key)) == (if h.Holds() && h.Key() == key then 1 else 0)
  {
    hide BuildCallbackLockKey, ExtractTransactionId;
  }

  lemma HoldersBoundedAdvance(s: State, i: nat, n: Stepped, key: string)
    requires HoldersBounded(s, key) && i < |s.handlers|
    requires Moves(i, s.handlers[i], n.handler, n.event) && Effects(s.shared, n.shared, i, s.handlers[i], n.event)
    ensures HoldersBounded(s.(shared := n.shared, handlers := s.handlers[i := n.handler], log := Logged(s.log, n.event)), key)
  {
    hide Moves, Weight, Tally, Occurs, Counts, RowsAfter, Handler.Key, Handler.Holds, Handler.Done;
    MovesHold(i, s.handlers[i], n.handler, n.event, key);
    TallyUpdate(s.handlers, i, n.handler, Holding(key));
    OccursLogged(s.log, n.event, Expiries(key));
  }

  lemma FreshHoldsNothing(h: Handler, key: string)
    requires IsFresh(h)
    ensures Weight(h, Holding(key)) == 0 && !h.Holds()
  {
    hide ExtractTransactionId, BuildCallbackLockKey;
  }

  lemma HoldersBoundedStep(s: State, l: Label, key: string)
    requires HoldersBounded(s, key)
    ensures HoldersBounded(Apply(s, l), key)
  {
    hide HandlerStep, Moves, Effects, ReadsTable, IsFresh, Weight, FindById, Bind;
    match l
    case Spawn(h) =>
      if IsFresh(h) {
        FreshHoldsNothing(h, key);
        TallyAppend(s.handlers, h, Holding(key));
      }
    case Advance(i, o) =>
      if Active(s, i) {
        hide HoldersBounded;
        var n := ApplyAdvance(s, i, o);
        HoldersBoundedAdvance(s, i, n, key);
      }
    case Expire(k) => OccursLogged(s.log, Some(Expired(k)), Expiries(key));
    case _ =>
  }

  lemma {:induction false} LockDegradesGracefully(labels: seq<Label>, key: string)
    ensures HoldersBounded(Run(INIT, labels), key)
    decreases |labels|
  {
    if labels != [] {
      LockDegradesGracefully(labels[..|labels| - 1], key);
      HoldersBoundedStep(Run(INIT, labels[..|labels| - 1]), labels[|labels| - 1], key);
    }
  }

  // ---------- With the clock: exact mutual exclusion ----------

  /** A holder that can still take steps. */
  predicate LiveHolder(s: State, i: nat) {
    i < |s.handlers| && i !in s.crashed && s.handlers[i].Holds()
  }

  /** No live holder is still inside `limit` seconds after it acquired its lock. */
  ghost predicate Prompt(s: State, limit: nat) {
    forall i: nat :: LiveHolder(s, i) ==> s.shared.now < s.handlers[i].since + limit
  }

  ghost predicate PromptThroughout(labels: seq<Label>, limit: nat) {
    forall k :: 0 <= k <= |labels| ==> Prompt(Run(INIT, labels[..k]), limit)
  }

  /** No two live holders share a key. */
  ghost predicate Exclusive(s: State) {
    forall i: nat, j: nat :: LiveHolder(s, i) && LiveHolder(s, j) && s.handlers[i].Key() == s.handlers[j].Key() ==> i == j
  }

  /** Every live holder's key is set, and by that holder. */
  ghost predicate HoldersOwn(s: State) {
    forall i: nat :: LiveHolder(s, i) ==>
      var key := s.handlers[i].Key();
      key in s.shared.locks && s.shared.locks[key] == Lock(i, s.handlers[i].since + TTL)
  }

  ghost predicate DeletesOwn(log: seq<Event>) {
    forall e :: e in log && e.Did? && e.act.Deleted? ==> e.act.owner == Some(e.who)
  }

  lemma SinceKept(sh: Shared, me: nat, h: Handler, n: Stepped)
    requires Shaped(sh, me, h, n)
    ensures h.Holds() && n.handler.Holds() ==> n.handler.since == h.since
    ensures ActOf(n.event) == Some(Acquired) ==> n.handler.Callback? && n.handler.since == sh.now
    ensures n.event.Some? && n.event.value.Did? ==> n.event.value.who == me
  {
  }

  lemma OwnAdvance(s: State, i: nat, n: Stepped)
    requires HoldersOwn(s) && DeletesOwn(s.log) && i < |s.handlers| && i !in s.crashed
    requires Shaped(s.shared, i, s.handlers[i], n)
    ensures var t := s.(shared := n.shared, handlers := s.handlers[i := n.handler], log := Logged(s.log, n.event));
            HoldersOwn(t) && DeletesOwn(t.log)
  {
    var h := s.handlers[i];
    var t := s.(shared := n.shared, handlers := s.handlers[i := n.handler], log := Logged(s.log, n.event));
    MovesHold(i, h, n.handler, n.event, h.Key());
    SinceKept(s.shared, i, h, n);
    hide Moves, ReadsTable, RowsAfter;
    assert h.Holds() ==> LiveHolder(s, i);
    forall j: nat | LiveHolder(t, j)
      ensures var key := t.handlers[j].Key();
              key in t.shared.locks && t.shared.locks[key] == Lock(j, t.handlers[j].since + TTL)
    {
      if j != i {
        assert LiveHolder(s, j);
      }
    }
  }

  lemma OwnStep(s: State, l: Label, limit: nat)
    requires HoldersOwn(s) && DeletesOwn(s.log) && Prompt(s, limit) && limit <= TTL
    ensures HoldersOwn(Apply(s, l)) && DeletesOwn(Apply(s, l).log)
  {
    hide HandlerStep, Shaped, FindById, Bind;
    var t := Apply(s, l);
    match l
    case Spawn(h) =>
      if IsFresh(h) {
        FreshHoldsNothing(h, "");
        hide IsFresh;
        assert forall j: nat :: LiveHolder(t, j) ==> LiveHolder(s, j);
      }
    case Advance(i, o) =>
      if Active(s, i) {
        hide IsFresh;
        var n := ApplyAdvance(s, i, o);
        OwnAdvance(s, i, n);
      }
    case _ =>
      hide IsFresh;
      assert forall j: nat :: LiveHolder(t, j) ==> LiveHolder(s, j);
  }

  lemma {:induction false} OwnThroughout(labels: seq<Label>, limit: nat)
    requires PromptThroughout(labels, limit) && limit <= TTL
    ensures HoldersOwn(Run(INIT, labels)) && DeletesOwn(Run(INIT, labels).log)
    decreases |labels|
  {
    if labels != [] {
      var before := labels[..|labels| - 1];
      assert forall k :: 0 <= k <= |before| ==> before[..k] == labels[..k];
      OwnThroughout(before, limit);
      assert labels[..|before|] == before;
      OwnStep(Run(INIT, before), labels[|labels| - 1], limit);
    }
  }

  /** If every live holder leaves within its lock's thirty seconds, two live holders never share a key, crashes and
      stray locks notwithstanding, and every `DEL` removes its own handler's lock. */
  lemma {:induction false} PromptHoldersExcludeEachOther(labels: seq<Label>, limit: nat)
    requires PromptThroughout(labels, limit) && limit <= TTL
    ensures Exclusive(Run(INIT, labels))
    ensures DeletesOwn(Run(INIT, labels).log)
  {
    OwnThroughout(labels, limit);
  }
}
