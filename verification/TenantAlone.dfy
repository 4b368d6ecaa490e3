/**
 What a guarded session amounts to: the same session, unguarded, alone on a database that holds the
 tenant's rows only. The guards refuse exactly the operations `Served` leaves out, and add nothing
 to the others.
 */
module TenantAlone {
  import opened Wrappers
  import opened TenantQuery
  import opened TenantGuard
  import opened TenantIsolation

  // --- The session without guards ---

  /** New objects of a scoped table are the tenant's. */
  function Mine(objs: seq<Obj>, scoped: set<Table>, t: Tenant): seq<Obj> {
    seq(|objs|, i requires 0 <= i < |objs| =>
      if objs[i].table in scoped then objs[i].(tenant := Some(t)) else objs[i])
  }

  /** Reads the entities of a table into the identity map. */
  function Entities(s: State, table: Table, where: Cond): (State, seq<Row>) {
    var rows := Eval(LoadQuery(table, where), s.db, []);
    (s.(loaded := s.loaded + set row | row in rows && row.Row? :: (table, row.id)), rows)
  }

  /** The operation on a database in which every row is the session's to see. */
  function Alone(s: State, op: Op, scoped: set<Table>, t: Tenant): (State, seq<Row>) {
    match op
    case Read(query) => (s, Eval(query, s.db, []))
    case Load(table, where) => Entities(s, table, where)
    case ColumnLoad(table, id) => (s, Eval(ByKeyQuery(table, id), s.db, []))
    case RelationLoad(table, where) => Entities(s, table, where)
    case BulkUpdate(table, where, assign) =>
      (s.(db := s.db[table := UpdateRows(Stored(s.db, table), where, assign, s.db)]), [])
    case BulkDelete(table, where) => (s.(db := s.db[table := DeleteRows(Stored(s.db, table), where, s.db)]), [])
    case Flush(added, dirty, deleted) =>
      (State(RemoveAll(ReplaceAll(InsertAll(s.db, Mine(added, scoped, t)), dirty), deleted), s.loaded + Keys(added)),
       [])
  }

  /** The operations the guards let through. */
  ghost predicate Served(op: Op, scoped: set<Table>, t: Tenant) {
    match op
    case Read(query) => SelectsScoped(query, scoped) || QueryTables(query) * scoped == {}
    case Load(table, where) => table in scoped || CondTables(where) * scoped == {}
    case ColumnLoad(_, _) => true
    case RelationLoad(_, _) => true
    case BulkUpdate(table, where, _) => table in scoped || CondTables(where) * scoped == {}
    case BulkDelete(table, where) => table in scoped || CondTables(where) * scoped == {}
    case Flush(added, dirty, deleted) =>
      && (forall o :: o in added && o.table in scoped ==> o.tenant in {None, Some(t)})
      && (forall o :: (o in dirty || o in deleted) && o.table in scoped ==> o.tenant == Some(t))
  }

  // --- What is served ---

  lemma LoadServed(table: Table, where: Cond, scoped: set<Table>, t: Tenant)
    ensures Guarded(SelectStmt(LoadQuery(table, where)), false, scoped, Some(t)).Ok?
            <==> table in scoped || CondTables(where) * scoped == {}
  {
    var q := LoadQuery(table, where);
    SelectVerdict(q, scoped, t);
    assert QueriesTables(q.perRow) == {} && QueriesTables(q.once) == {} && FromTables(q.from) == {table};
    assert QueryTables(q) == {table} + CondTables(where);
    assert SlotOf(q.from, 0) == Some(Entity(table));
    if table in scoped {
      assert SelectsAt(q, scoped, 0);
    } else {
      assert QueryTables(q) * scoped == CondTables(where) * scoped;
    }
  }

  lemma FlushServed(added: seq<Obj>, dirty: seq<Obj>, deleted: seq<Obj>, scoped: set<Table>, t: Tenant)
    ensures FlushVerdict(MarksOf(added), MarksOf(dirty + deleted), scoped, Some(t)).None?
            <==> Served(Flush(added, dirty, deleted), scoped, t)
  {
    var touched := dirty + deleted;
    MarksAt(added);
    MarksAt(touched);
    assert forall o :: o in touched <==> o in dirty || o in deleted;
    if FlushVerdict(MarksOf(added), MarksOf(touched), scoped, Some(t)).None? {
      forall o | o in added && o.table in scoped
        ensures o.tenant in {None, Some(t)}
      {
        var i :| 0 <= i < |added| && added[i] == o;
        assert InsertAllowed(MarksOf(added)[i], scoped, t);
      }
      forall o | o in touched && o.table in scoped
        ensures o.tenant == Some(t)
      {
        var i :| 0 <= i < |touched| && touched[i] == o;
        assert WriteAllowed(MarksOf(touched)[i], scoped, t);
      }
    } else {
      FlushRefused(added, touched, scoped, t);
    }
  }

  lemma FlushRefused(added: seq<Obj>, touched: seq<Obj>, scoped: set<Table>, t: Tenant)
    requires FlushVerdict(MarksOf(added), MarksOf(touched), scoped, Some(t)).Some?
    ensures || (exists o :: o in added && o.table in scoped && o.tenant !in {None, Some(t)})
            || (exists o :: o in touched && o.table in scoped && o.tenant != Some(t))
  {
    MarksAt(added);
    MarksAt(touched);
    if i :| 0 <= i < |added| && !InsertAllowed(MarksOf(added)[i], scoped, t) {
      assert added[i] in added;
    } else {
      var i :| 0 <= i < |touched| && !WriteAllowed(MarksOf(touched)[i], scoped, t);
      assert touched[i] in touched;
    }
  }

  /** An operation is refused exactly when it is not served, and then nothing has changed. */
  lemma ServedIff(s: State, op: Op, scoped: set<Table>, t: Tenant)
    ensures Step(s, op, scoped, t).1.Ok? <==> Served(op, scoped, t)
    ensures Step(s, op, scoped, t).1.Err? ==> Step(s, op, scoped, t).0 == s
  {
    match op
    case Read(query) => SelectVerdict(query, scoped, t);
    case Load(table, where) => LoadServed(table, where, scoped, t);
    case BulkUpdate(table, where, assign) => BulkVerdict(UpdateStmt(table, true, where, assign), scoped, t, Some(t));
    case BulkDelete(table, where) => BulkVerdict(DeleteStmt(table, true, where), scoped, t, Some(t));
    case Flush(added, dirty, deleted) => FlushServed(added, dirty, deleted, scoped, t);
    case _ =>
  }

  // --- What an operation that is served does ---

  /** What the session sees when it is the only one. */
  function ViewOf(s: State, scoped: set<Table>, t: Tenant): State {
    s.(db := Restrict(s.db, scoped, t))
  }

  lemma OwnedOnly(rows: seq<Row>, t: Tenant)
    ensures forall row :: row in Owned(rows, t) ==> OwnedBy(row, t)
  {
    OwnedMembers(rows, t);
  }

  /** On the view the criterion of a bulk statement holds of every row: its condition is the original one. */
  lemma CriterionVanishes(table: Table, where: Cond, scoped: set<Table>, t: Tenant, db: Database, row: Row)
    requires ViaEntitiesCond(where, scoped) && (table in scoped ==> OwnedBy(row, t))
    ensures var view := Restrict(db, scoped, t);
            Holds(TargetCriterion(table, true, where, scoped, t), view, [], [row]) <==> Holds(where, view, [], [row])
  {
    CondPreserved(where, scoped, t, Restrict(db, scoped, t), [], [row]);
    RestrictIdempotent(db, scoped, t);
  }

  lemma {:induction false} UpdatesAlike(rows: seq<Row>, table: Table, where: Cond, assign: Row -> Row,
                                        scoped: set<Table>, t: Tenant, db: Database)
    requires ViaEntitiesCond(where, scoped) && (table in scoped ==> forall row :: row in rows ==> OwnedBy(row, t))
    ensures var view := Restrict(db, scoped, t);
            UpdateRows(rows, TargetCriterion(table, true, where, scoped, t), assign, view)
            == UpdateRows(rows, where, assign, view)
    decreases |rows|
  {
    if rows != [] {
      assert rows[0] in rows;
      CriterionVanishes(table, where, scoped, t, db, rows[0]);
      UpdatesAlike(rows[1..], table, where, assign, scoped, t, db);
    }
  }

  lemma {:induction false} DeletionsAlike(rows: seq<Row>, table: Table, where: Cond, scoped: set<Table>, t: Tenant,
                                          db: Database)
    requires ViaEntitiesCond(where, scoped) && (table in scoped ==> forall row :: row in rows ==> OwnedBy(row, t))
    ensures var view := Restrict(db, scoped, t);
            DeleteRows(rows, TargetCriterion(table, true, where, scoped, t), view) == DeleteRows(rows, where, view)
    decreases |rows|
  {
    if rows != [] {
      assert rows[0] in rows;
      CriterionVanishes(table, where, scoped, t, db, rows[0]);
      DeletionsAlike(rows[1..], table, where, scoped, t, db);
    }
  }

  lemma ViewRowsOwned(s: State, table: Table, scoped: set<Table>, t: Tenant)
    requires table in scoped
    ensures forall row :: row in Stored(ViewOf(s, scoped, t).db, table) ==> OwnedBy(row, t)
  {
    RestrictStored(s.db, scoped, t, table);
    OwnedOnly(Stored(s.db, table), t);
  }

  /** A query with criteria gives on the view what the query gives. */
  lemma CriteriaVanish(s: State, q: Query, scoped: set<Table>, t: Tenant)
    requires ViaEntities(q, scoped)
    ensures Eval(AddCriteria(q, scoped, t), ViewOf(s, scoped, t).db, []) == Eval(q, ViewOf(s, scoped, t).db, [])
  {
    CriteriaPreserveMeaning(q, scoped, t, Restrict(s.db, scoped, t), []);
    RestrictIdempotent(s.db, scoped, t);
  }

  lemma ReadAlone(s: State, query: Query, scoped: set<Table>, t: Tenant)
    requires ViaEntities(query, scoped) && Served(Read(query), scoped, t)
    ensures var (end, rows) := Alone(ViewOf(s, scoped, t), Read(query), scoped, t);
            Step(ViewOf(s, scoped, t), Read(query), scoped, t) == (end, Ok(rows))
  {
    SelectVerdict(query, scoped, t);
    CriteriaVanish(s, query, scoped, t);
  }

  lemma LoadAlone(s: State, table: Table, where: Cond, scoped: set<Table>, t: Tenant)
    requires ViaEntitiesCond(where, scoped)
    ensures var (end, rows) := Entities(ViewOf(s, scoped, t), table, where);
            && Step(ViewOf(s, scoped, t), RelationLoad(table, where), scoped, t) == (end, Ok(rows))
            && (Served(Load(table, where), scoped, t) ==>
                  Step(ViewOf(s, scoped, t), Load(table, where), scoped, t) == (end, Ok(rows)))
  {
    var q := LoadQuery(table, where);
    assert ViaEntitiesSource(Entity(table), scoped) && ViaEntitiesFrom(q.from, scoped);
    assert ViaEntitiesQueries(q.perRow, scoped) && ViaEntitiesQueries(q.once, scoped);
    CriteriaVanish(s, q, scoped, t);
    LoadServed(table, where, scoped, t);
    if Served(Load(table, where), scoped, t) {
      AcceptedIsWithCriteria(SelectStmt(q), scoped, t);
    }
  }

  lemma BulkUpdateAlone(s: State, table: Table, where: Cond, assign: Row -> Row, scoped: set<Table>, t: Tenant)
    requires ViaEntitiesCond(where, scoped) && Served(BulkUpdate(table, where, assign), scoped, t)
    ensures var (end, rows) := Alone(ViewOf(s, scoped, t), BulkUpdate(table, where, assign), scoped, t);
            Step(ViewOf(s, scoped, t), BulkUpdate(table, where, assign), scoped, t) == (end, Ok(rows))
  {
    BulkVerdict(UpdateStmt(table, true, where, assign), scoped, t, Some(t));
    if table in scoped {
      ViewRowsOwned(s, table, scoped, t);
      UpdatesAlike(Stored(ViewOf(s, scoped, t).db, table), table, where, assign, scoped, t, s.db);
    }
  }

  lemma BulkDeleteAlone(s: State, table: Table, where: Cond, scoped: set<Table>, t: Tenant)
    requires ViaEntitiesCond(where, scoped) && Served(BulkDelete(table, where), scoped, t)
    ensures var (end, rows) := Alone(ViewOf(s, scoped, t), BulkDelete(table, where), scoped, t);
            Step(ViewOf(s, scoped, t), BulkDelete(table, where), scoped, t) == (end, Ok(rows))
  {
    BulkVerdict(DeleteStmt(table, true, where), scoped, t, Some(t));
    if table in scoped {
      ViewRowsOwned(s, table, scoped, t);
      DeletionsAlike(Stored(ViewOf(s, scoped, t).db, table), table, where, scoped, t, s.db);
    }
  }

  lemma FlushAlone(s: State, added: seq<Obj>, dirty: seq<Obj>, deleted: seq<Obj>, scoped: set<Table>, t: Tenant)
    requires Served(Flush(added, dirty, deleted), scoped, t)
    ensures var (end, rows) := Alone(s, Flush(added, dirty, deleted), scoped, t);
            Step(s, Flush(added, dirty, deleted), scoped, t) == (end, Ok(rows))
  {
    FlushServed(added, dirty, deleted, scoped, t);
    StampedAt(added, scoped, t);
    assert forall i :: 0 <= i < |added| ==> added[i] in added;
    assert StampAll(added, scoped, t) == Mine(added, scoped, t);
  }

  /** A permitted operation that is served does to the view, and answers, what it does and answers alone. */
  lemma StepAlone(s: State, op: Op, scoped: set<Table>, t: Tenant)
    requires Coherent(s, scoped, t) && Permitted(op, s, scoped) && Served(op, scoped, t)
    ensures var (s', outcome) := Step(s, op, scoped, t);
            var (end, rows) := Alone(ViewOf(s, scoped, t), op, scoped, t);
            ViewOf(s', scoped, t) == end && outcome == Ok(rows)
  {
    StepOnView(s, op, scoped, t);
    match op
    case Read(query) => ReadAlone(s, query, scoped, t);
    case Load(table, where) => LoadAlone(s, table, where, scoped, t);
    case ColumnLoad(table, id) =>
    case RelationLoad(table, where) => LoadAlone(s, table, where, scoped, t);
    case BulkUpdate(table, where, assign) => BulkUpdateAlone(s, table, where, assign, scoped, t);
    case BulkDelete(table, where) => BulkDeleteAlone(s, table, where, scoped, t);
    case Flush(added, dirty, deleted) => FlushAlone(ViewOf(s, scoped, t), added, dirty, deleted, scoped, t);
  }

  // --- Whole runs ---

  /** The run of a session alone, in which the operations that are not served have not been asked for. */
  ghost function RunAlone(s: State, ops: seq<Op>, scoped: set<Table>, t: Tenant): (State, seq<Option<seq<Row>>>)
    decreases ops
  {
    if ops == [] then (s, [])
    else if !Served(ops[0], scoped, t) then
      var (end, answers) := RunAlone(s, ops[1..], scoped, t);
      (end, [None] + answers)
    else
      var (s', rows) := Alone(s, ops[0], scoped, t);
      var (end, answers) := RunAlone(s', ops[1..], scoped, t);
      (end, [Some(rows)] + answers)
  }

  /** The answer, or that there was none. */
  function AnswerOf(outcome: Outcome): Option<seq<Row>> {
    if outcome.Ok? then Some(outcome.value) else None
  }

  ghost predicate SameAnswers(outcomes: seq<Outcome>, answers: seq<Option<seq<Row>>>) {
    |outcomes| == |answers| && forall i :: 0 <= i < |outcomes| ==> AnswerOf(outcomes[i]) == answers[i]
  }

  /**
   A session under a tenant context, among all tenants' rows, cannot be told from the same session
   without guards, alone on the tenant's rows: same answers all along, same view at the end. What it
   is refused is what is not served, and leaves no trace.
   */
  lemma {:induction false} SessionIsAlone(s: State, ops: seq<Op>, scoped: set<Table>, t: Tenant)
    requires Coherent(s, scoped, t) && PermittedRun(s, ops, scoped, t)
    ensures var (end, outcomes) := Run(s, ops, scoped, t);
            var (own, answers) := RunAlone(ViewOf(s, scoped, t), ops, scoped, t);
            ViewOf(end, scoped, t) == own && SameAnswers(outcomes, answers)
    decreases ops
  {
    if ops != [] {
      ServedIff(s, ops[0], scoped, t);
      StepOnView(s, ops[0], scoped, t);
      if Served(ops[0], scoped, t) {
        StepAlone(s, ops[0], scoped, t);
      }
      var s' := Step(s, ops[0], scoped, t).0;
      SessionIsAlone(s', ops[1..], scoped, t);
      OneAnswerMore(s, s', ops, scoped, t);
    }
  }

  /** The first operation put before the rest of the run. */
  lemma OneAnswerMore(s: State, s': State, ops: seq<Op>, scoped: set<Table>, t: Tenant)
    requires ops != [] && s' == Step(s, ops[0], scoped, t).0
    requires var view := ViewOf(s, scoped, t);
             if Served(ops[0], scoped, t) then
               var (end, rows) := Alone(view, ops[0], scoped, t);
               ViewOf(s', scoped, t) == end && Step(s, ops[0], scoped, t).1 == Ok(rows)
             else ViewOf(s', scoped, t) == view && Step(s, ops[0], scoped, t).1.Err?
    requires SameAnswers(Run(s', ops[1..], scoped, t).1, RunAlone(ViewOf(s', scoped, t), ops[1..], scoped, t).1)
    ensures SameAnswers(Run(s, ops, scoped, t).1, RunAlone(ViewOf(s, scoped, t), ops, scoped, t).1)
  {
  }

  // --- The writes, row by row ---

  /** An UPDATE assigns to exactly the rows its condition picks. */
  lemma {:induction false} UpdatedRow(rows: seq<Row>, where: Cond, assign: Row -> Row, db: Database, i: nat)
    requires i < |rows|
    ensures var updated := UpdateRows(rows, where, assign, db);
            && |updated| == |rows|
            && updated[i] == if Holds(where, db, [], [rows[i]]) then assign(rows[i]) else rows[i]
  {
    if |rows| > 1 {
      UpdatedRow(rows[1..], where, assign, db, if i == 0 then 0 else i - 1);
    } else {
      assert UpdateRows(rows[1..], where, assign, db) == [];
    }
  }

  /** A DELETE leaves exactly the rows its condition does not pick. */
  lemma {:induction false} RowsLeft(rows: seq<Row>, where: Cond, db: Database, row: Row)
    ensures multiset(DeleteRows(rows, where, db))[row]
            == if Holds(where, db, [], [row]) then 0 else multiset(rows)[row]
  {
    if rows != [] {
      var rest := DeleteRows(rows[1..], where, db);
      RowsLeft(rows[1..], where, db, row);
      assert rows == [rows[0]] + rows[1..];
      if Holds(where, db, [], [rows[0]]) {
        assert DeleteRows(rows, where, db) == rest;
      } else {
        assert DeleteRows(rows, where, db) == [rows[0]] + rest;
      }
    }
  }

  function RowsIn(objs: seq<Obj>, table: Table): seq<Row> {
    if objs == [] then []
    else (if objs[0].table == table then [RowOf(objs[0])] else []) + RowsIn(objs[1..], table)
  }

  /** An INSERT appends the new rows to their tables. */
  lemma {:induction false} RowsInserted(db: Database, objs: seq<Obj>, table: Table)
    ensures Stored(InsertAll(db, objs), table) == Stored(db, table) + RowsIn(objs, table)
    decreases objs
  {
    if objs != [] {
      var o := objs[0];
      RowsInserted(db[o.table := Stored(db, o.table) + [RowOf(o)]], objs[1..], table);
      assert Stored(db, table) + ([RowOf(o)] + RowsIn(objs[1..], table))
             == Stored(db, table) + [RowOf(o)] + RowsIn(objs[1..], table);
    }
  }

  /** The object that a row's primary key denotes, among those of its table; the last one if several do. */
  function WrittenTo(objs: seq<Obj>, table: Table, row: Row): Row {
    if objs == [] || row.Null? then row
    else
      var last := objs[|objs| - 1];
      if last.table == table && last.id == row.id then RowOf(last)
      else WrittenTo(objs[..|objs| - 1], table, row)
  }

  /** The rows whose primary key none of these objects of the table has. */
  predicate NotAmong(objs: seq<Obj>, table: Table, row: Row) {
    row.Row? ==> forall o :: o in objs ==> !(o.table == table && o.id == row.id)
  }

  lemma {:induction false} RowReplaced(rows: seq<Row>, o: Obj, i: nat)
    requires i < |rows|
    ensures |ReplaceById(rows, o)| == |rows|
    ensures ReplaceById(rows, o)[i] == if rows[i].Row? && rows[i].id == o.id then RowOf(o) else rows[i]
  {
    if |rows| > 1 {
      RowReplaced(rows[1..], o, if i == 0 then 0 else i - 1);
    } else {
      assert ReplaceById(rows[1..], o) == [];
    }
  }

  lemma {:induction false} RowRemoved(rows: seq<Row>, id: nat, row: Row)
    ensures multiset(RemoveById(rows, id))[row] == if row.Row? && row.id == id then 0 else multiset(rows)[row]
  {
    if rows != [] {
      RowRemoved(rows[1..], id, row);
      assert rows == [rows[0]] + rows[1..];
    }
  }

  /** Writing back changes exactly the rows whose primary key is that of a dirty object of their table. */
  lemma {:induction false} RowsReplaced(db: Database, objs: seq<Obj>, table: Table, i: nat)
    requires i < |Stored(db, table)|
    ensures |Stored(ReplaceAll(db, objs), table)| == |Stored(db, table)|
    ensures Stored(ReplaceAll(db, objs), table)[i] == WrittenTo(objs, table, Stored(db, table)[i])
    decreases |objs|
  {
    if objs != [] {
      var n := |objs| - 1;
      RowsReplaced(db, objs[..n], table, i);
      ReplaceLast(db, objs);
      if objs[n].table == table {
        RowReplaced(Stored(ReplaceAll(db, objs[..n]), table), objs[n], i);
        WrittenKeepsId(objs[..n], table, Stored(db, table)[i]);
      }
    }
  }

  lemma {:induction false} WrittenKeepsId(objs: seq<Obj>, table: Table, row: Row)
    ensures row.Null? ==> WrittenTo(objs, table, row) == row
    ensures row.Row? ==> WrittenTo(objs, table, row).Row? && WrittenTo(objs, table, row).id == row.id
    decreases |objs|
  {
    if objs != [] {
      WrittenKeepsId(objs[..|objs| - 1], table, row);
    }
  }

  lemma {:induction false} ReplaceLast(db: Database, objs: seq<Obj>)
    requires objs != []
    ensures var n := |objs| - 1;
            var before := ReplaceAll(db, objs[..n]);
            ReplaceAll(db, objs)
            == before[objs[n].table := ReplaceById(Stored(before, objs[n].table), objs[n])]
    decreases |objs|
  {
    var db' := db[objs[0].table := ReplaceById(Stored(db, objs[0].table), objs[0])];
    if |objs| > 1 {
      ReplaceLast(db', objs[1..]);
      assert objs[..|objs| - 1][1..] == objs[1..][..|objs| - 2];
    } else {
      assert objs[1..] == [] && ReplaceAll(db', []) == db' && objs[..0] == [];
    }
  }

  /** Deleting removes exactly the rows whose primary key is that of a deleted object of their table. */
  lemma {:induction false} RowsRemoved(db: Database, objs: seq<Obj>, table: Table, row: Row)
    ensures multiset(Stored(RemoveAll(db, objs), table))[row]
            == if NotAmong(objs, table, row) then multiset(Stored(db, table))[row] else 0
    decreases |objs|
  {
    if objs != [] {
      var o := objs[0];
      RowsRemoved(db[o.table := RemoveById(Stored(db, o.table), o.id)], objs[1..], table, row);
      RowRemoved(Stored(db, o.table), o.id, row);
      assert forall x :: x in objs <==> x == o || x in objs[1..];
    }
  }
}
