/** The payments table: one row per reference, looked up by reference or by transaction id. */
module PaymentTable {
  import opened Wrappers
  import opened PaymentDomain

  type Table = map<string, Row>

  /** What `save`, `update` and the like are given: the columns left out keep their value. */
  datatype Patch = Patch(status: Option<string>, processed: Option<bool>)

  predicate HasId(row: Row, id: string) {
    row.transactionId == Some(id)
  }

  /** No two rows share a transaction id, and each row is stored under its own reference. */
  ghost predicate WellFormed(t: Table) {
    && (forall r :: r in t ==> t[r].reference == r)
    && (forall r, q, id :: r in t && q in t && HasId(t[r], id) && HasId(t[q], id) ==> r == q)
  }

  ghost function FindById(t: Table, id: string): (found: Option<Row>)
    ensures found.Some? ==> HasId(found.value, id) && exists r :: r in t && t[r] == found.value
    ensures found.None? ==> forall r :: r in t ==> !HasId(t[r], id)
  {
    if exists r :: r in t && HasId(t[r], id)
    then var r :| r in t && HasId(t[r], id); Some(t[r])
    else None
  }

  /** In a well-formed table the lookup does not depend on which row the database returns first. */
  lemma FindByIdUnique(t: Table, r: string, id: string)
    requires WellFormed(t) && r in t && HasId(t[r], id)
    ensures FindById(t, id) == Some(t[r])
  {
    var found := FindById(t, id).value;
    var q :| q in t && t[q] == found;
    assert HasId(t[q], id);
  }

  function Patched(row: Row, patch: Patch): Row {
    row.(status := patch.status.GetOr(row.status), processed := patch.processed.GetOr(row.processed))
  }

  /** `UPDATE payments SET ... WHERE transactionId = id`. */
  function UpdateWhere(t: Table, id: string, patch: Patch): Table {
    map r | r in t :: if HasId(t[r], id) then Patched(t[r], patch) else t[r]
  }

  /** TypeORM `save` of a payment without a transaction id: insert, or overwrite the row of that reference
      except for the column that was left out. */
  function Upsert(t: Table, row: Row): Table {
    t[row.reference := row.(transactionId := if row.reference in t then t[row.reference].transactionId else None)]
  }

  /** Binding an id nobody uses to a row that has none. */
  function Bind(t: Table, reference: string, id: string): Table
    requires reference in t
  {
    t[reference := t[reference].(transactionId := Some(id))]
  }

  lemma UpdateWhereKeeps(t: Table, id: string, patch: Patch)
    requires WellFormed(t)
    ensures WellFormed(UpdateWhere(t, id, patch))
    ensures forall other :: FindById(UpdateWhere(t, id, patch), other) ==
                            if other == id && FindById(t, id).Some? then Some(Patched(FindById(t, id).value, patch))
                            else FindById(t, other)
  {
    var u := UpdateWhere(t, id, patch);
    assert forall r, i :: r in t ==> (HasId(u[r], i) <==> HasId(t[r], i));
    forall other
      ensures FindById(u, other) == if other == id && FindById(t, id).Some? then Some(Patched(FindById(t, id).value, patch))
                                    else FindById(t, other)
    {
      if FindById(t, other).Some? {
        var r :| r in t && t[r] == FindById(t, other).value;
        FindByIdUnique(u, r, other);
      }
    }
  }

  lemma UpdateWhereWellFormed(t: Table, id: string, patch: Patch)
    requires WellFormed(t)
    ensures WellFormed(UpdateWhere(t, id, patch))
  {
    UpdateWhereKeeps(t, id, patch);
  }

  lemma UpsertKeeps(t: Table, row: Row)
    requires WellFormed(t)
    ensures WellFormed(Upsert(t, row))
    ensures forall id :: FindById(Upsert(t, row), id) ==
                         if row.reference in t && HasId(t[row.reference], id) then Some(Upsert(t, row)[row.reference])
                         else FindById(t, id)
  {
    var u := Upsert(t, row);
    assert forall r, i :: r in u ==> (HasId(u[r], i) <==> r in t && HasId(t[r], i));
    forall id
      ensures FindById(u, id) == if row.reference in t && HasId(t[row.reference], id) then Some(u[row.reference])
                                 else FindById(t, id)
    {
      if FindById(t, id).Some? {
        var r :| r in t && t[r] == FindById(t, id).value;
        FindByIdUnique(u, r, id);
      }
    }
  }

  lemma BindKeeps(t: Table, reference: string, id: string)
    requires WellFormed(t) && reference in t && t[reference].transactionId.None? && FindById(t, id).None?
    ensures WellFormed(Bind(t, reference, id))
    ensures forall other :: FindById(Bind(t, reference, id), other) ==
                            if other == id then Some(Bind(t, reference, id)[reference]) else FindById(t, other)
  {
    var u := Bind(t, reference, id);
    assert forall r, i :: r in u && r != reference ==> (HasId(u[r], i) <==> HasId(t[r], i));
    forall other
      ensures FindById(u, other) == if other == id then Some(u[reference]) else FindById(t, other)
    {
      if other == id {
        FindByIdUnique(u, reference, id);
      } else if FindById(t, other).Some? {
        var r :| r in t && t[r] == FindById(t, other).value;
        FindByIdUnique(u, r, other);
      }
    }
  }
}
