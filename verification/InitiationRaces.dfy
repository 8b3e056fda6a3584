/** `initiate` checks for the reference and then upserts. Without overlap the check protects the row. */
module InitiationRaces {
  import opened PaymentDomain
  import opened PaymentTable
  import opened World
  import opened Protocol
  import opened ControlFlow
  import opened RowLife
  import opened Identity

  /** An initiation for `reference` that can still take steps. */
  predicate Initiating(s: State, i: nat, reference: string) {
    Active(s, i) && s.handlers[i].Initiate? && s.handlers[i].request.reference == reference
  }

  /** No two initiations for one reference are under way. */
  ghost predicate NoOverlap(s: State) {
    forall i: nat, j: nat, r :: Initiating(s, i, r) && Initiating(s, j, r) ==> i == j
  }

  ghost predicate NeverOverlaps(labels: seq<Label>) {
    forall k :: 0 <= k <= |labels| ==> NoOverlap(Run(INIT, labels[..k]))
  }

  /** The initiations for `reference` that are under way. */
  ghost function Underway(s: State, reference: string): set<nat> {
    set i: nat | i < |s.handlers| && Initiating(s, i, reference)
  }

  /** At most `n` initiations of any one reference are ever under way together. */
  ghost predicate NeverMoreThan(labels: seq<Label>, n: nat) {
    forall k, reference :: 0 <= k <= |labels| ==> |Underway(Run(INIT, labels[..k]), reference)| <= n
  }

  lemma AtMostOneElement(s: set<nat>, i: nat, j: nat)
    requires |s| <= 1 && i in s && j in s
    ensures i == j
  {
    assert |s - {i}| == |s| - 1;
    assert j !in s - {i};
  }

  lemma OneNeverOverlaps(labels: seq<Label>, n: nat)
    requires NeverMoreThan(labels, n) && n <= 1
    ensures NeverOverlaps(labels)
  {
    hide Run, Initiating;
    forall k, i: nat, j: nat, r | 0 <= k <= |labels| && Initiating(Run(INIT, labels[..k]), i, r) &&
                                  Initiating(Run(INIT, labels[..k]), j, r)
      ensures i == j
    {
      var s := Run(INIT, labels[..k]);
      assert i < |s.handlers| && j < |s.handlers| by { InitiatingExists(s, i, r); InitiatingExists(s, j, r); }
      AtMostOneElement(Underway(s, r), i, j);
    }
  }

  lemma InitiatingExists(s: State, i: nat, reference: string)
    requires Initiating(s, i, reference)
    ensures i < |s.handlers|
  {
  }

  /** Whoever is about to create a row has found none, and none has appeared. */
  ghost predicate CreatorsSeeNoRow(s: State) {
    && (forall i: nat, r :: Initiating(s, i, r) && s.handlers[i].ipc.AwaitCreate? ==> r !in s.shared.rows)
    && (forall e :: e in s.log && e.Created? ==> e.prior.None?)
  }

  lemma InitiateSteps(sh: Shared, me: nat, h: Handler, n: Stepped)
    requires Shaped(sh, me, h, n)
    ensures n.event.Some? && n.event.value.Created? ==>
              h.Initiate? && h.ipc.AwaitCreate? && n.event.value.reference == h.request.reference &&
              (h.request.reference !in sh.rows ==> n.event.value.prior.None?)
    ensures n.handler.Initiate? ==> h.Initiate? && n.handler.request == h.request
    ensures n.handler.Initiate? && n.handler.ipc.AwaitCreate? ==> h.request.reference !in sh.rows && n.event.None?
    ensures forall r :: r in n.shared.rows ==>
              r in sh.rows || (n.event.Some? && n.event.value.Created? && r == n.event.value.reference)
  {
    hide CallbackMoves, CheckMoves, ExtractTransactionId, BuildCallbackLockKey, FindById;
  }

  lemma CreatorsAdvance(s: State, i: nat, n: Stepped, t: State)
    requires CreatorsSeeNoRow(s) && NoOverlap(s) && Active(s, i) && Shaped(s.shared, i, s.handlers[i], n)
    requires t == s.(shared := n.shared, handlers := s.handlers[i := n.handler], log := Logged(s.log, n.event))
    ensures CreatorsSeeNoRow(t)
  {
    InitiateSteps(s.shared, i, s.handlers[i], n);
    hide Shaped;
    var created := n.event.Some? && n.event.value.Created?;
    assert created ==> Initiating(s, i, s.handlers[i].request.reference);
    forall j: nat, r | Initiating(t, j, r) && t.handlers[j].ipc.AwaitCreate?
      ensures r !in t.shared.rows
    {
      assert j != i ==> Initiating(s, j, r);
    }
  }

  lemma CreatorsStep(s: State, l: Label)
    requires CreatorsSeeNoRow(s) && NoOverlap(s)
    ensures CreatorsSeeNoRow(Apply(s, l))
  {
    hide HandlerStep, Shaped, FindById;
    var t := Apply(s, l);
    match l
    case Advance(i, o) =>
      if Active(s, i) {
        var n := ApplyAdvance(s, i, o);
        CreatorsAdvance(s, i, n, t);
      }
    case _ =>
      forall j: nat, r | Initiating(t, j, r) && t.handlers[j].ipc.AwaitCreate?
        ensures r !in t.shared.rows
      {
        assert j < |s.handlers| ==> Initiating(s, j, r);
      }
  }

  lemma {:induction false} CreatorsThroughout(labels: seq<Label>)
    requires NeverOverlaps(labels)
    ensures CreatorsSeeNoRow(Run(INIT, labels))
    decreases |labels|
  {
    hide Apply, NoOverlap;
    if labels != [] {
      var before := labels[..|labels| - 1];
      assert forall k :: 0 <= k <= |before| ==> before[..k] == labels[..k];
      CreatorsThroughout(before);
      assert labels[..|before|] == before;
      CreatorsStep(Run(INIT, before), labels[|labels| - 1]);
    }
  }

  /** When no reference ever has two initiations under way at once, no row is ever created twice or reset: the
      hypotheses of the other results hold for every reference and every transaction. */
  lemma {:induction false} NoOverlapNoReset(labels: seq<Label>, reference: string, id: string)
    requires NeverOverlaps(labels)
    ensures NeverRecreated(Run(INIT, labels).log, reference)
    ensures NeverReset(Run(INIT, labels).log, id)
  {
    hide Run, NeverOverlaps;
    CreatorsThroughout(labels);
  }
}
