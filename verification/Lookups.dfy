/** Once a transaction id finds a reference it finds that reference for ever, resets or not; so a handler's snapshot and
    a later lookup are about the same payment. */
module Lookups {
  import opened Wrappers
  import opened PaymentDomain
  import opened PaymentTable
  import opened World
  import opened Protocol
  import opened ControlFlow
  import opened RowLife

  predicate SameReference(before: Option<Row>, after: Option<Row>) {
    before.Some? ==> after.Some? && after.value.reference == before.value.reference
  }

  lemma LookupAfterCreate(rows: Table, row: Row, id: string)
    requires WellFormed(rows)
    ensures SameReference(FindById(rows, id), FindById(Upsert(rows, row), id))
  {
    UpsertKeeps(rows, row);
    if row.reference in rows && HasId(rows[row.reference], id) {
      FindByIdUnique(rows, row.reference, id);
    }
  }

  lemma LookupAfterUpdate(rows: Table, i: string, id: string, patch: Patch)
    requires WellFormed(rows)
    ensures SameReference(FindById(rows, id), FindById(UpdateWhere(rows, i, patch), id))
  {
    hide UpdateWhere, FindById, WellFormed;
    RowAfterUpdate(rows, i, id, patch);
  }

  lemma LookupAdvance(rows: Table, h: Handler, event: Option<Event>, id: string)
    requires WellFormed(rows)
    ensures SameReference(FindById(rows, id), FindById(RowsAfter(rows, h, event), id))
  {
    hide WellFormed, FindById, UpdateWhere, Upsert;
    match event
    case Some(Did(_, i, WroteCallback(status, _))) => LookupAfterUpdate(rows, i, id, CallbackPatch(status));
    case Some(Did(_, i, WroteCheck(status, _))) => LookupAfterUpdate(rows, i, id, StatusPatch(status));
    case Some(Created(_, _, _)) =>
      if h.Initiate? {
        LookupAfterCreate(rows, NewRow(h.request, h.channel), id);
      }
    case _ =>
  }

  lemma LookupStep(s: State, l: Label, id: string)
    requires WellFormed(s.shared.rows)
    ensures SameReference(FindById(s.shared.rows, id), FindById(Apply(s, l).shared.rows, id))
  {
    hide HandlerStep, FindById, WellFormed, RowsAfter, Bind, IsFresh;
    match l
    case Advance(i, o) =>
      if Active(s, i) {
        var n := ApplyAdvance(s, i, o);
        LookupAdvance(s.shared.rows, s.handlers[i], n.event, id);
      }
    case BindId(reference, other) =>
      if reference in s.shared.rows && s.shared.rows[reference].transactionId.None? &&
         FindById(s.shared.rows, other).None? {
        BindKeeps(s.shared.rows, reference, other);
      }
    case _ =>
  }

  /** In every continuation a bound transaction id finds the reference it was bound to. */
  lemma {:induction false} LookupsArePermanent(s: State, labels: seq<Label>, id: string)
    requires WellFormed(s.shared.rows)
    ensures SameReference(FindById(s.shared.rows, id), FindById(Run(s, labels).shared.rows, id))
    decreases |labels|
  {
    hide Apply, FindById, WellFormed;
    if labels != [] {
      var before := labels[..|labels| - 1];
      LookupsArePermanent(s, before, id);
      TableStaysWellFormed(s, before);
      LookupStep(Run(s, before), labels[|labels| - 1], id);
    }
  }

  /** A snapshot is of the payment that its handler's transaction id finds. */
  predicate Finds(found: Option<Row>, h: Handler) {
    SameReference(RowIn(h), found)
  }

  ghost predicate AllFind(s: State) {
    forall i :: 0 <= i < |s.handlers| ==> Finds(FindById(s.shared.rows, s.handlers[i].Id()), s.handlers[i])
  }

  lemma StillFinds(s: State, l: Label, h: Handler)
    requires WellFormed(s.shared.rows) && Finds(FindById(s.shared.rows, h.Id()), h)
    ensures Finds(FindById(Apply(s, l).shared.rows, h.Id()), h)
  {
    hide Apply, FindById, WellFormed, RowIn;
    LookupStep(s, l, h.Id());
  }

  lemma MovedFinds(s: State, i: nat, o: Outcome, n: Stepped)
    requires WellFormed(s.shared.rows) && Active(s, i) && Finds(FindById(s.shared.rows, s.handlers[i].Id()), s.handlers[i])
    requires Shaped(s.shared, i, s.handlers[i], n)
    ensures n.handler.Id() == s.handlers[i].Id()
    ensures Finds(FindById(Apply(s, Advance(i, o)).shared.rows, n.handler.Id()), n.handler)
  {
    SameId(s.shared, i, s.handlers[i], n);
    hide Apply, FindById, WellFormed, RowIn, Moves, Effects, Handler.Id;
    LookupStep(s, Advance(i, o), s.handlers[i].Id());
  }

  lemma SameId(sh: Shared, me: nat, h: Handler, n: Stepped)
    requires Shaped(sh, me, h, n)
    ensures n.handler.Id() == h.Id()
  {
    hide CallbackMoves, CheckMoves, Effects, ReadsTable;
  }

  lemma FreshFinds(found: Option<Row>, h: Handler)
    requires IsFresh(h)
    ensures Finds(found, h)
  {
  }

  lemma AllFindStep(s: State, l: Label)
    requires WellFormed(s.shared.rows) && AllFind(s)
    ensures AllFind(Apply(s, l))
  {
    hide HandlerStep, Shaped, FindById, WellFormed, Finds, IsFresh, Handler.Id;
    var t := Apply(s, l);
    forall j | 0 <= j < |t.handlers|
      ensures Finds(FindById(t.shared.rows, t.handlers[j].Id()), t.handlers[j])
    {
      if j >= |s.handlers| {
        FreshFinds(FindById(t.shared.rows, t.handlers[j].Id()), t.handlers[j]);
      } else if l.Advance? && l.who == j && Active(s, j) {
        var n := ApplyAdvance(s, j, l.outcome);
        MovedFinds(s, j, l.outcome, n);
      } else {
        StillFinds(s, l, s.handlers[j]);
      }
    }
  }

  lemma {:induction false} SnapshotsFind(labels: seq<Label>)
    ensures AllFind(Run(INIT, labels))
    decreases |labels|
  {
    hide Apply, FindById, WellFormed;
    if labels != [] {
      var before := labels[..|labels| - 1];
      SnapshotsFind(before);
      assert WellFormed(Run(INIT, before).shared.rows) by { EmptyTable(); TableStaysWellFormed(INIT, before); }
      AllFindStep(Run(INIT, before), labels[|labels| - 1]);
    }
  }

  lemma EmptyTable()
    ensures WellFormed(INIT.shared.rows)
  {
  }

  // ---------- Snapshots were read ----------

  /** The row was what the lookup found at some moment of the run. */
  ghost predicate WasFound(labels: seq<Label>, id: string, row: Row) {
    exists k :: 0 <= k <= |labels| && FindById(Run(INIT, labels[..k]).shared.rows, id) == Some(row)
  }

  lemma StillWasFound(labels: seq<Label>, l: Label, id: string, row: Row)
    requires WasFound(labels, id, row)
    ensures WasFound(labels + [l], id, row)
  {
    hide Run, FindById;
    var k :| 0 <= k <= |labels| && FindById(Run(INIT, labels[..k]).shared.rows, id) == Some(row);
    assert (labels + [l])[..k] == labels[..k];
  }

  lemma FoundJustNow(labels: seq<Label>, l: Label, id: string, row: Row)
    requires FindById(Run(INIT, labels).shared.rows, id) == Some(row)
    ensures WasFound(labels + [l], id, row)
  {
    hide Run, FindById;
    assert (labels + [l])[..|labels|] == labels;
  }

  lemma NewSnapshot(s: State, l: Label, i: nat)
    requires i < |Apply(s, l).handlers| && RowIn(Apply(s, l).handlers[i]).Some?
    ensures i < |s.handlers| && Apply(s, l).handlers[i].Id() == s.handlers[i].Id()
    ensures RowIn(s.handlers[i]) == RowIn(Apply(s, l).handlers[i]) ||
            FindById(s.shared.rows, s.handlers[i].Id()) == RowIn(Apply(s, l).handlers[i])
  {
    hide HandlerStep, Moves, Effects, FindById, RowIn, IsFresh, Bind, Handler.Id;
    match l
    case Spawn(h) =>
      if IsFresh(h) {
        FreshCarries(h);
      }
    case Advance(j, o) =>
      if Active(s, j) {
        var n := ApplyAdvance(s, j, o);
        SameId(s.shared, j, s.handlers[j], n);
      }
    case _ =>
  }

  lemma FreshCarries(h: Handler)
    requires IsFresh(h)
    ensures RowIn(h).None?
  {
  }

  /** Every row that a handler carries is what its transaction's lookup found at some moment of the run. */
  lemma {:induction false} SnapshotsWereRead(labels: seq<Label>, i: nat)
    requires i < |Run(INIT, labels).handlers| && RowIn(Run(INIT, labels).handlers[i]).Some?
    ensures WasFound(labels, Run(INIT, labels).handlers[i].Id(), RowIn(Run(INIT, labels).handlers[i]).value)
    decreases |labels|
  {
    hide Apply, RowIn, FindById, WasFound, Handler.Id;
    if labels != [] {
      var before, l := labels[..|labels| - 1], labels[|labels| - 1];
      var s, h := Run(INIT, before), Run(INIT, labels).handlers[i];
      assert labels == before + [l];
      NewSnapshot(s, l, i);
      if RowIn(s.handlers[i]) == RowIn(h) {
        SnapshotsWereRead(before, i);
        StillWasFound(before, l, h.Id(), RowIn(h).value);
      } else {
        FoundJustNow(before, l, h.Id(), RowIn(h).value);
      }
    }
  }
}
