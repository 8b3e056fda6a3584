/** The life of one row: how a single label can change the row of a transaction, and what never changes. */
module RowLife {
  import opened Wrappers
  import opened PaymentDomain
  import opened PaymentTable
  import opened World
  import opened Protocol
  import opened ControlFlow

  /** `create` found a row there already and put this transaction's row back to pending and unprocessed. */
  predicate Resets(e: Event, id: string) {
    e.Created? && e.prior.Some? && HasId(e.prior.value, id)
  }

  ghost predicate NeverReset(log: seq<Event>, id: string) {
    forall e :: e in log ==> !Resets(e, id)
  }

  /** What a label added to the log, if anything. */
  ghost function LabelEvent(s: State, l: Label): Option<Event> {
    var after := Apply(s, l).log;
    if |after| > |s.log| then Some(after[|s.log|]) else None
  }

  /** How the row of `id` follows from its predecessor and the event, as long as nothing resets it. */
  predicate RowFollows(before: Option<Row>, after: Option<Row>, event: Option<Event>, id: string) {
    match before
    case None => after.Some? ==> event.None? && after.value.transactionId == Some(id)
    case Some(row) =>
      match event
      case Some(Did(_, i, WroteCallback(status, _))) =>
        after == Some(if i == id then Patched(row, CallbackPatch(status)) else row)
      case Some(Did(_, i, WroteCheck(status, _))) =>
        after == Some(if i == id then Patched(row, StatusPatch(status)) else row)
      case _ => after == before
  }

  lemma RowAfterUpdate(rows: Table, id: string, other: string, patch: Patch)
    requires WellFormed(rows)
    ensures WellFormed(UpdateWhere(rows, id, patch))
    ensures FindById(UpdateWhere(rows, id, patch), other) ==
            if other == id && FindById(rows, id).Some? then Some(Patched(FindById(rows, id).value, patch))
            else FindById(rows, other)
  {
    hide UpdateWhere, FindById, WellFormed;
    UpdateWhereKeeps(rows, id, patch);
  }

  lemma RowAfterCreate(rows: Table, row: Row, id: string)
    requires WellFormed(rows)
    ensures WellFormed(Upsert(rows, row))
    ensures FindById(Upsert(rows, row), id) == FindById(rows, id) ||
            (row.reference in rows && HasId(rows[row.reference], id) && FindById(rows, id).Some?)
  {
    UpsertKeeps(rows, row);
  }

  lemma RowAdvance(rows: Table, h: Handler, event: Option<Event>, id: string)
    requires WellFormed(rows)
    requires event.Some? && event.value.Created? && h.Initiate? ==>
               event.value.reference == h.request.reference &&
               event.value.prior == if h.request.reference in rows then Some(rows[h.request.reference]) else None
    ensures WellFormed(RowsAfter(rows, h, event))
    ensures (event.Some? && Resets(event.value, id)) ||
            RowFollows(FindById(rows, id), FindById(RowsAfter(rows, h, event), id), event, id)
    ensures FindById(rows, id).None? ==> FindById(RowsAfter(rows, h, event), id).None?
  {
    hide WellFormed, FindById, UpdateWhere, Upsert;
    match event
    case Some(Did(_, i, WroteCallback(status, _))) => RowAfterUpdate(rows, i, id, CallbackPatch(status));
    case Some(Did(_, i, WroteCheck(status, _))) => RowAfterUpdate(rows, i, id, StatusPatch(status));
    case Some(Created(_, _, _)) =>
      if h.Initiate? {
        RowAfterCreate(rows, NewRow(h.request, h.channel), id);
      }
    case _ =>
  }

  /** One label: the table stays well formed, and the row of `id` either is reset or follows from the one before. */
  lemma RowStep(s: State, l: Label, id: string)
    requires WellFormed(s.shared.rows)
    ensures WellFormed(Apply(s, l).shared.rows)
    ensures Apply(s, l).log == Logged(s.log, LabelEvent(s, l))
    ensures (LabelEvent(s, l).Some? && Resets(LabelEvent(s, l).value, id)) ||
            RowFollows(FindById(s.shared.rows, id), FindById(Apply(s, l).shared.rows, id), LabelEvent(s, l), id)
    ensures FindById(s.shared.rows, id).None? && FindById(Apply(s, l).shared.rows, id).Some? ==>
              && l.BindId? && l.id == id && l.reference in s.shared.rows
              && s.shared.rows[l.reference].transactionId.None?
              && FindById(Apply(s, l).shared.rows, id).value == s.shared.rows[l.reference].(transactionId := Some(id))
  {
    hide HandlerStep, FindById, WellFormed, UpdateWhere, Upsert;
    match l
    case Advance(i, o) =>
      if Active(s, i) {
        var n := ApplyAdvance(s, i, o);
        assert n.shared.rows == RowsAfter(s.shared.rows, s.handlers[i], n.event);
        RowAdvance(s.shared.rows, s.handlers[i], n.event, id);
      }
    case BindId(reference, other) =>
      if reference in s.shared.rows && s.shared.rows[reference].transactionId.None? &&
         FindById(s.shared.rows, other).None? {
        BindKeeps(s.shared.rows, reference, other);
      }
    case _ =>
  }

  lemma {:induction false} TableStaysWellFormed(s: State, labels: seq<Label>)
    requires WellFormed(s.shared.rows)
    ensures WellFormed(Run(s, labels).shared.rows)
    decreases |labels|
  {
    if labels != [] {
      TableStaysWellFormed(s, labels[..|labels| - 1]);
      RowStep(Run(s, labels[..|labels| - 1]), labels[|labels| - 1], "");
    }
  }

  /** Once a transaction has a row it keeps it: in every continuation without a reset, the identity of the row
      never changes and `processed` never goes back. */
  lemma {:induction false} RowsArePermanent(s: State, labels: seq<Label>, id: string)
    requires WellFormed(s.shared.rows) && FindById(s.shared.rows, id).Some?
    requires NeverReset(Run(s, labels).log, id)
    ensures s.log <= Run(s, labels).log
    ensures var before, after := FindById(s.shared.rows, id), FindById(Run(s, labels).shared.rows, id);
            && after.Some? && SameIdentity(before.value, after.value)
            && (before.value.processed ==> after.value.processed)
    decreases |labels|
  {
    hide Apply, FindById, WellFormed, SameIdentity;
    if labels == [] {
      assert SameIdentity(FindById(s.shared.rows, id).value, FindById(s.shared.rows, id).value) by { IdentityReflexive(s, id); }
    } else {
      var before := labels[..|labels| - 1];
      var mid := Run(s, before);
      TableStaysWellFormed(s, before);
      RowStep(mid, labels[|labels| - 1], id);
      var e := LabelEvent(mid, labels[|labels| - 1]);
      assert e.Some? ==> e.value in Run(s, labels).log;
      RowsArePermanent(s, before, id);
      RowFollowsIdentity(FindById(s.shared.rows, id).value, FindById(mid.shared.rows, id).value,
                         FindById(Run(s, labels).shared.rows, id), e, id);
    }
  }

  lemma IdentityReflexive(s: State, id: string)
    requires FindById(s.shared.rows, id).Some?
    ensures SameIdentity(FindById(s.shared.rows, id).value, FindById(s.shared.rows, id).value)
  {
  }

  lemma RowFollowsIdentity(first: Row, before: Row, after: Option<Row>, event: Option<Event>, id: string)
    requires SameIdentity(first, before) && (first.processed ==> before.processed)
    requires RowFollows(Some(before), after, event, id)
    ensures after.Some? && SameIdentity(first, after.value) && (first.processed ==> after.value.processed)
  {
  }
}
